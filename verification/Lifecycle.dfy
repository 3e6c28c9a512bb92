/**
  The keep-alive manager (adapter/lifecycle.ts).  An asynchronous method is cut at its
  awaits: each piece that runs without interruption is one function of the manager's
  fields, and one method of the class below.  What the server manager answers in such a
  piece is a parameter.
*/
module Lifecycle {
  import opened Common

  const RETRY_BASE_MS := 30_000
  const RETRY_MAX_MS := 300_000

  type Name = string
  type ConnId = nat

  /** A definition object; two registrations of equal text are different objects with different ids. */
  datatype Definition = Definition(id: nat, disabled: bool, http: bool)

  datatype Status = Connected | Closed | NeedsAuth

  datatype Retry = Retry(
    attempts: nat,
    nextAttemptAt: nat,
    connection: Option<ConnId>,
    status: Option<Status>,
    warningReported: bool)

  /** The manager's fields that a convergence pass reads and writes. */
  datatype Core = Core(
    keepAlive: map<Name, Definition>,
    retry: map<Name, Retry>,
    pending: set<Name>,
    stopped: bool)

  /** What one uninterrupted piece sees of the world outside the manager. */
  datatype Seen = Seen(
    conns: map<Name, ConnId>,
    status: ConnId -> Status,
    now: nat,
    aborted: bool,
    authPending: bool,
    transient: bool)
  {
    function StatusOf(c: Option<ConnId>): Option<Status> {
      if c.None? then None else Some(status(c.value))
    }
  }

  /** Where a server's check waits. */
  datatype Pc =
    | Queued
    | Connecting
    | Refreshing(connection: ConnId, again: bool)
    | Reconnecting
    | Publishing(published: ConnId)
    | NotifyingAuth
    | RestoringHealth
    | Closing(closed: ConnId)
    | Done

  datatype Refresh = RefreshFailed(sessionLost: bool) | Superseded | TimedOut | Refreshed

  /** How the awaited call ended. */
  datatype Outcome = Threw | Returned(connection: ConnId) | RefreshEnded(refresh: Refresh) | Finished

  // ----- Retry state -----

  function Pow2(k: nat): nat {
    if k == 0 then 1 else 2 * Pow2(k - 1)
  }

  /** The delay after the given consecutive failure, in milliseconds. */
  function Delay(attempts: nat): nat
    requires attempts > 0
  {
    var d := RETRY_BASE_MS * Pow2(if attempts - 1 <= 10 then attempts - 1 else 10);
    if d <= RETRY_MAX_MS then d else RETRY_MAX_MS
  }

  function RecordRetry(core: Core, seen: Seen, name: Name, def: Definition, conn: Option<ConnId>): (Core, bool) {
    if Lookup(core.keepAlive, name) != Some(def) then (core, false)
    else
      var previous := Lookup(core.retry, name);
      var attempts := (if previous.Some? then previous.value.attempts else 0) + 1;
      var warned := previous.Some? && previous.value.warningReported;
      var retry := Retry(attempts, seen.now + Delay(attempts), conn, seen.StatusOf(conn), warned);
      (core.(retry := core.retry[name := retry]), true)
  }

  function ReportFailure(core: Core, seen: Seen, name: Name, def: Definition, conn: Option<ConnId>): Core {
    var (core1, recorded) := RecordRetry(core, seen, name, def, conn);
    if !recorded || seen.transient then core1
    else core1.(retry := core1.retry[name := core1.retry[name].(warningReported := true)])
  }

  function ShouldAttempt(core: Core, seen: Seen, name: Name, conn: Option<ConnId>): (Core, bool) {
    if name !in core.retry then (core, true)
    else
      var retry := core.retry[name];
      var moved := retry.connection != conn || retry.status != seen.StatusOf(conn);
      if moved then (core.(retry := core.retry - {name}), true)
      else (core, seen.now >= retry.nextAttemptAt)
  }

  // ----- The pieces of a server's check -----

  function BeginPublish(core: Core, seen: Seen, name: Name, def: Definition, conn: ConnId): (Core, Pc) {
    if Lookup(core.keepAlive, name) != Some(def) then
      (core, if Lookup(seen.conns, name) == Some(conn) then Closing(conn) else Done)
    else (core.(pending := core.pending + {name}), Publishing(conn))
  }

  function EndPublish(core: Core, seen: Seen, name: Name, def: Definition, conn: ConnId, threw: bool): Core {
    if !threw then core.(pending := core.pending - {name}, retry := core.retry - {name})
    else if core.stopped then core
    else ReportFailure(core, seen, name, def, Some(conn))
  }

  function BeginNotify(core: Core, seen: Seen, name: Name, def: Definition, conn: ConnId): (Core, Pc) {
    if Lookup(core.keepAlive, name) != Some(def) then
      (core, if Lookup(seen.conns, name) == Some(conn) then Closing(conn) else Done)
    else (core.(pending := core.pending - {name}, retry := core.retry - {name}), NotifyingAuth)
  }

  /** The start of checkKeepAliveConnection, up to its first await. */
  function Check(core: Core, seen: Seen, name: Name, def: Definition, again: bool): (Core, Pc) {
    if def.disabled || core.stopped || seen.aborted then (core, Done)
    else if Lookup(core.keepAlive, name) != Some(def) then (core, Done)
    else
      var conn := Lookup(seen.conns, name);
      if seen.StatusOf(conn) == Some(NeedsAuth) then (core.(pending := core.pending - {name}), Done)
      else
        var (core1, attempt) := ShouldAttempt(core, seen, name, conn);
        if !attempt then (core1, Done)
        else if seen.StatusOf(conn) != Some(Connected) then
          (core1, if seen.authPending then Done else Connecting)
        else if name in core1.pending then BeginPublish(core1, seen, name, def, conn.value)
        else (core1, if def.http then Refreshing(conn.value, again) else Done)
  }

  /** After connect or reconnect. */
  function AfterConnect(core: Core, seen: Seen, name: Name, def: Definition, answer: Option<ConnId>): (Core, Pc) {
    if core.stopped || seen.aborted then (core, Done)
    else if answer.None? then (ReportFailure(core, seen, name, def, Lookup(seen.conns, name)), Done)
    else
      match seen.status(answer.value)
      case NeedsAuth => BeginNotify(core, seen, name, def, answer.value)
      case Closed => (ReportFailure(core, seen, name, def, answer), Done)
      case Connected => BeginPublish(core, seen, name, def, answer.value)
  }

  /** The deletion of a retry record, and the health callback when there was one. */
  function RestoreHealth(core: Core, name: Name): (Core, Pc) {
    if name in core.retry then (core.(retry := core.retry - {name}), RestoringHealth) else (core, Done)
  }

  function HandleSuperseded(
      core: Core, seen: Seen, name: Name, def: Definition, stale: ConnId, again: bool): (Core, Pc)
  {
    var current := Lookup(seen.conns, name);
    if Lookup(core.keepAlive, name) != Some(def) then (core, Done)
    else if current == Some(stale) && seen.status(stale) == Connected then RestoreHealth(core, name)
    else if seen.StatusOf(current) == Some(Connected) then BeginPublish(core, seen, name, def, current.value)
    else if seen.StatusOf(current) == Some(NeedsAuth) then BeginNotify(core, seen, name, def, current.value)
    else if again then Check(core, seen, name, def, false)
    else (core, Done)
  }

  function AfterRefresh(
      core: Core, seen: Seen, name: Name, def: Definition, conn: ConnId, again: bool, refresh: Refresh)
    : (Core, Pc)
  {
    match refresh
    case RefreshFailed(sessionLost) =>
      if core.stopped || seen.aborted then (core, Done)
      else if Lookup(seen.conns, name) != Some(conn) || seen.status(conn) != Connected then
        HandleSuperseded(core, seen, name, def, conn, again)
      else if !sessionLost then (ReportFailure(core, seen, name, def, Some(conn)), Done)
      else (core, if seen.authPending then Done else Reconnecting)
    case Superseded => HandleSuperseded(core, seen, name, def, conn, again)
    case TimedOut => (RecordRetry(core, seen, name, def, Some(conn)).0, Done)
    case Refreshed =>
      if Lookup(core.keepAlive, name) != Some(def) then (core, Done) else RestoreHealth(core, name)
  }

  /** The connection that a connect or reconnect answered with. */
  function Connection(outcome: Outcome): Option<ConnId> {
    if outcome.Returned? then Some(outcome.connection) else None
  }

  function RefreshOf(outcome: Outcome): Refresh {
    if outcome.RefreshEnded? then outcome.refresh else RefreshFailed(false)
  }

  /** One piece of a check, from where it waits to where it next waits or ends. */
  function Resume(core: Core, seen: Seen, name: Name, def: Definition, pc: Pc, outcome: Outcome): (Core, Pc) {
    match pc
    case Queued => Check(core, seen, name, def, true)
    case Connecting => AfterConnect(core, seen, name, def, Connection(outcome))
    case Reconnecting => AfterConnect(core, seen, name, def, Connection(outcome))
    case Refreshing(conn, again) => AfterRefresh(core, seen, name, def, conn, again, RefreshOf(outcome))
    case Publishing(conn) => (EndPublish(core, seen, name, def, conn, outcome.Threw?), Done)
    case NotifyingAuth => (core, Done)
    case RestoringHealth => (core, Done)
    case Closing(_) => (core, Done)
    case Done => (core, Done)
  }

  // ----- Convergence -----

  /** The servers a new convergence pass checks, when ensureConverged starts one. */
  function PassToStart(core: Core, active: Option<nat>, aborted: bool): Option<map<Name, Definition>> {
    if core.stopped || aborted || active.Some? then None else Some(core.keepAlive)
  }

  /** The fields when shutdownOnce has waited for the health check and for convergence. */
  function Cleared(core: Core): Core {
    core.(retry := map[], pending := {})
  }

  // ----- The manager as the program updates it -----

  class McpLifecycleManager {
    var keepAliveServers: map<Name, Definition>
    var retryStates: map<Name, Retry>
    var pendingMetadataPublications: set<Name>
    var stopped: bool
    var activeConvergence: Option<nat>
    var shutdownStarted: bool

    ghost function View(): Core
      reads this
    {
      Core(keepAliveServers, retryStates, pendingMetadataPublications, stopped)
    }

    constructor ()
      ensures View() == Core(map[], map[], {}, false) && activeConvergence == None && !shutdownStarted
    {
      keepAliveServers, retryStates, pendingMetadataPublications, stopped := map[], map[], {}, false;
      activeConvergence, shutdownStarted := None, false;
    }

    method MarkKeepAlive(name: Name, def: Definition)
      modifies `keepAliveServers
      ensures keepAliveServers == if def.disabled then old(keepAliveServers) else old(keepAliveServers)[name := def]
    {
      if !def.disabled {
        keepAliveServers := keepAliveServers[name := def];
      }
    }

    method UnregisterServer(name: Name)
      modifies this
      ensures View() == Core(old(keepAliveServers) - {name}, old(retryStates) - {name},
        old(pendingMetadataPublications) - {name}, old(stopped))
      ensures activeConvergence == old(activeConvergence) && shutdownStarted == old(shutdownStarted)
    {
      keepAliveServers := keepAliveServers - {name};
      retryStates := retryStates - {name};
      pendingMetadataPublications := pendingMetadataPublications - {name};
    }

    method RecordRetryState(seen: Seen, name: Name, def: Definition, conn: Option<ConnId>) returns (recorded: bool)
      modifies `retryStates
      ensures (View(), recorded) == RecordRetry(old(View()), seen, name, def, conn)
    {
      if Lookup(keepAliveServers, name) != Some(def) {
        return false;
      }
      var attempts, warned := 1, false;
      if name in retryStates {
        attempts, warned := retryStates[name].attempts + 1, retryStates[name].warningReported;
      }
      var retry := Retry(attempts, seen.now + Delay(attempts), conn, seen.StatusOf(conn), warned);
      retryStates := retryStates[name := retry];
      return true;
    }

    method ReportConnectionFailure(seen: Seen, name: Name, def: Definition, conn: Option<ConnId>)
      modifies `retryStates
      ensures View() == ReportFailure(old(View()), seen, name, def, conn)
    {
      var recorded := RecordRetryState(seen, name, def, conn);
      if recorded && !seen.transient {
        retryStates := retryStates[name := retryStates[name].(warningReported := true)];
      }
    }

    method ShouldAttemptConnection(seen: Seen, name: Name, conn: Option<ConnId>) returns (attempt: bool)
      modifies `retryStates
      ensures (View(), attempt) == ShouldAttempt(old(View()), seen, name, conn)
    {
      if name !in retryStates {
        return true;
      }
      var retry := retryStates[name];
      if retry.connection != conn || retry.status != seen.StatusOf(conn) {
        retryStates := retryStates - {name};
        return true;
      }
      return seen.now >= retry.nextAttemptAt;
    }

    method PublishConnectedMetadata(seen: Seen, name: Name, def: Definition, conn: ConnId) returns (pc: Pc)
      modifies `pendingMetadataPublications
      ensures (View(), pc) == BeginPublish(old(View()), seen, name, def, conn)
    {
      if Lookup(keepAliveServers, name) != Some(def) {
        return if Lookup(seen.conns, name) == Some(conn) then Closing(conn) else Done;
      }
      pendingMetadataPublications := pendingMetadataPublications + {name};
      return Publishing(conn);
    }

    method MetadataPublished(seen: Seen, name: Name, def: Definition, conn: ConnId, threw: bool)
      modifies `pendingMetadataPublications, `retryStates
      ensures View() == EndPublish(old(View()), seen, name, def, conn, threw)
    {
      if !threw {
        pendingMetadataPublications := pendingMetadataPublications - {name};
        retryStates := retryStates - {name};
      } else if !stopped {
        ReportConnectionFailure(seen, name, def, Some(conn));
      }
    }

    method NotifyAuthRequired(seen: Seen, name: Name, def: Definition, conn: ConnId) returns (pc: Pc)
      modifies `pendingMetadataPublications, `retryStates
      ensures (View(), pc) == BeginNotify(old(View()), seen, name, def, conn)
    {
      if Lookup(keepAliveServers, name) != Some(def) {
        return if Lookup(seen.conns, name) == Some(conn) then Closing(conn) else Done;
      }
      pendingMetadataPublications := pendingMetadataPublications - {name};
      retryStates := retryStates - {name};
      return NotifyingAuth;
    }

    method CheckKeepAliveConnection(seen: Seen, name: Name, def: Definition, again: bool) returns (pc: Pc)
      modifies `pendingMetadataPublications, `retryStates
      ensures (View(), pc) == Check(old(View()), seen, name, def, again)
    {
      if def.disabled || stopped || seen.aborted {
        return Done;
      }
      if Lookup(keepAliveServers, name) != Some(def) {
        return Done;
      }
      var conn := Lookup(seen.conns, name);
      if seen.StatusOf(conn) == Some(NeedsAuth) {
        pendingMetadataPublications := pendingMetadataPublications - {name};
        return Done;
      }
      var attempt := ShouldAttemptConnection(seen, name, conn);
      if !attempt {
        return Done;
      }
      if seen.StatusOf(conn) != Some(Connected) {
        return if seen.authPending then Done else Connecting;
      }
      if name in pendingMetadataPublications {
        pc := PublishConnectedMetadata(seen, name, def, conn.value);
        return;
      }
      return if def.http then Refreshing(conn.value, again) else Done;
    }

    method ConnectionAttempted(seen: Seen, name: Name, def: Definition, answer: Option<ConnId>) returns (pc: Pc)
      modifies `pendingMetadataPublications, `retryStates
      ensures (View(), pc) == AfterConnect(old(View()), seen, name, def, answer)
    {
      if stopped || seen.aborted {
        return Done;
      }
      if answer.None? {
        ReportConnectionFailure(seen, name, def, Lookup(seen.conns, name));
        return Done;
      }
      if seen.status(answer.value) == NeedsAuth {
        pc := NotifyAuthRequired(seen, name, def, answer.value);
        return;
      }
      if seen.status(answer.value) != Connected {
        ReportConnectionFailure(seen, name, def, answer);
        return Done;
      }
      pc := PublishConnectedMetadata(seen, name, def, answer.value);
    }

    method HandleSupersededConnection(
        seen: Seen, name: Name, def: Definition, stale: ConnId, again: bool) returns (pc: Pc)
      modifies `pendingMetadataPublications, `retryStates
      ensures (View(), pc) == HandleSuperseded(old(View()), seen, name, def, stale, again)
    {
      var current := Lookup(seen.conns, name);
      if Lookup(keepAliveServers, name) != Some(def) {
        return Done;
      }
      if current == Some(stale) && seen.status(stale) == Connected {
        pc := ClearRetry(name);
        return;
      }
      if seen.StatusOf(current) == Some(Connected) {
        pc := PublishConnectedMetadata(seen, name, def, current.value);
        return;
      }
      if seen.StatusOf(current) == Some(NeedsAuth) {
        pc := NotifyAuthRequired(seen, name, def, current.value);
        return;
      }
      if again {
        pc := CheckKeepAliveConnection(seen, name, def, false);
        return;
      }
      return Done;
    }

    method ClearRetry(name: Name) returns (pc: Pc)
      modifies `retryStates
      ensures (View(), pc) == RestoreHealth(old(View()), name)
    {
      if name in retryStates {
        retryStates := retryStates - {name};
        return RestoringHealth;
      }
      return Done;
    }

    method ToolsRefreshed(
        seen: Seen, name: Name, def: Definition, conn: ConnId, again: bool, refresh: Refresh) returns (pc: Pc)
      modifies `pendingMetadataPublications, `retryStates
      ensures (View(), pc) == AfterRefresh(old(View()), seen, name, def, conn, again, refresh)
    {
      match refresh
      case RefreshFailed(sessionLost) =>
        if stopped || seen.aborted {
          return Done;
        }
        if Lookup(seen.conns, name) != Some(conn) || seen.status(conn) != Connected {
          pc := HandleSupersededConnection(seen, name, def, conn, again);
          return;
        }
        if !sessionLost {
          ReportConnectionFailure(seen, name, def, Some(conn));
          return Done;
        }
        return if seen.authPending then Done else Reconnecting;
      case Superseded =>
        pc := HandleSupersededConnection(seen, name, def, conn, again);
      case TimedOut =>
        var _ := RecordRetryState(seen, name, def, Some(conn));
        return Done;
      case Refreshed =>
        if Lookup(keepAliveServers, name) != Some(def) {
          return Done;
        }
        pc := ClearRetry(name);
    }

    /** One piece of a check, from where it waits. */
    method ResumeCheck(seen: Seen, name: Name, def: Definition, pc: Pc, outcome: Outcome) returns (next: Pc)
      modifies `pendingMetadataPublications, `retryStates
      ensures (View(), next) == Resume(old(View()), seen, name, def, pc, outcome)
    {
      match pc
      case Queued =>
        next := CheckKeepAliveConnection(seen, name, def, true);
      case Connecting =>
        next := ConnectionAttempted(seen, name, def, Connection(outcome));
      case Reconnecting =>
        next := ConnectionAttempted(seen, name, def, Connection(outcome));
      case Refreshing(conn, again) =>
        next := ToolsRefreshed(seen, name, def, conn, again, RefreshOf(outcome));
      case Publishing(conn) =>
        MetadataPublished(seen, name, def, conn, outcome.Threw?);
        next := Done;
      case _ =>
        next := Done;
    }

    /** The abort listener of the health checks. */
    method Stop()
      modifies `stopped
      ensures stopped
    {
      stopped := true;
    }

    /** ensureConverged until it waits: the snapshot of a new pass, or none when one is current. */
    method EnsureConverged(id: nat, aborted: bool) returns (pass: Option<map<Name, Definition>>)
      modifies `activeConvergence
      ensures pass == PassToStart(View(), old(activeConvergence), aborted)
      ensures activeConvergence == if pass.Some? then Some(id) else old(activeConvergence)
    {
      if stopped || aborted || activeConvergence.Some? {
        return None;
      }
      activeConvergence := Some(id);
      return Some(keepAliveServers);
    }

    method ConvergenceEnded(id: nat)
      modifies `activeConvergence
      ensures activeConvergence == if old(activeConvergence) == Some(id) then None else old(activeConvergence)
    {
      if activeConvergence == Some(id) {
        activeConvergence := None;
      }
    }

    /** gracefulShutdown: only the first caller starts the shutdown; the others share it. */
    method GracefulShutdown() returns (starts: bool)
      modifies `shutdownStarted, `stopped
      ensures starts == !old(shutdownStarted) && shutdownStarted
      ensures stopped == (old(stopped) || starts)
    {
      starts := !shutdownStarted;
      if starts {
        shutdownStarted, stopped := true, true;
      }
    }

    /** The last piece of shutdownOnce before closeAll. */
    method ClearForShutdown()
      modifies `activeConvergence, `retryStates, `pendingMetadataPublications
      ensures View() == Cleared(old(View())) && activeConvergence == None
    {
      activeConvergence, retryStates, pendingMetadataPublications := None, map[], {};
    }
  }
}
