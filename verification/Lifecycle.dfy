/** The session lifecycle as a state machine: one step is the code one task runs between two awaits.
    A statement on the sessions table takes effect when it is issued; the task that issued it
    goes on in a later step, with whatever value the statement read. */
module Lifecycle {
  import opened Wrappers
  import opened Records
  import opened Database

  type TaskId = nat

  /** What the awaited calls answer in one step. Each step looks only at the answers it awaits. */
  datatype Choice = Choice(
    cancelled: bool,             // CancelledError is raised at this await
    listed: bool,                // the catalog lists the alias
    connected: bool,             // the SSH chain opens and every helper call before `stopped` answers
    asked: bool,                 // an open gets as far as asking the helper to start the session
    healthy: bool,               // the local forward starts and the editor answers
    stopped: bool,               // the helper confirms session-stop
    removed: bool,               // the helper confirms session-remove
    closed: bool,                // the chain and what is closed with it close without an error, or none opened
    drained: bool,               // the forward listener closes without an error
    again: bool,                 // the reconnect deadline has not passed
    timely: bool,                // the reconnect deadline does not interrupt this await
    timed: bool,                 // the record carries a disconnect deadline in the future
    inspection: Inspection,
    started: RuntimeIdentity,
    port: int,
    code: ErrorCode,             // what connecting raises
    later: LaterCode,            // what a later call raises
    reason: CloseReason)

  /** Evidence and its uses. `op` numbers one run of a closing or reattaching operation. */
  datatype Act =
    | Confirmed(op: nat, id: SessionId)     // stop confirmed, or an inspection found nothing running
    | PreRemote(op: nat, id: SessionId)     // the pre-remote-failure rule applied
    | Removing(op: nat, id: SessionId)      // session-remove issued to the helper
    | Deleted(op: nat, id: SessionId, forced: bool)
    | RolledBack(id: SessionId)             // open deletes the row it could not reserve a slot for

  datatype OpenPhase =
    | Preparing                             // connecting, installing, starting the remote process
    | Identifying                           // set_remote_identity
    | Forwarding                            // opening the local forward
    | Forwarded(port: int)                  // set_tunnel_identity
    | Verifying                             // waiting for the editor
    | Publishing                            // mark_ready
    | Reading(found: Option<Row>)           // the final get_session
    | Judging(found: Option<Row>)           // clean-up: get_session after mark_ready settled
    | Releasing(tunnel: bool)               // clean-up: closing the listener
    | StoppingRemote                            // clean-up: stopping the remote process
    | ClosingChain                             // clean-up: closing the SSH chain
    | Rereading(found: Option<Row>)         // clean-up: get_session
    | Marking                               // clean-up: mark_error
    | Late(found: Option<Row>)              // _run_open: get_session after an exception
    | LateMarking                           // _run_open: mark_error

  datatype OpenTask = OpenTask(
    alias: Alias,
    phase: OpenPhase,
    started: bool,                          // ledger.remote_started
    persisted: bool,                        // ledger.remote_identity_persisted
    published: bool,                        // ledger.registry_added
    crashed: bool,                          // an Exception, not a CancelledError, is on its way out
    code: ErrorCode)                        // the error the clean-up is to record

  datatype Found = Found(id: SessionId, row: Row)

  /** Who runs _do_close; all but a spawned one hold the alias lock. */
  datatype ShutFor = Spawned | Forced | Retrying | Recovering(todo: seq<Found>)

  datatype ShutStep =
    | ShutStart
    | ShutRead(latest: Option<Row>)
    | ShutRemote(row: Row, tunnel: bool)
    | ShutClosing(absent: bool, failed: bool, tunnel: bool)
    | ShutClosed(absent: bool, failed: bool, retain: bool)
    | ShutCleared(absent: bool, failed: bool)
    | ShutMark
    | ShutDelete

  /** Who runs _reattach_existing_session; all hold the alias lock. */
  datatype AttachFor = ByRetry | ByExit | ByRecovery(todo: seq<Found>)

  datatype AttachStep =
    | AttachBegin(eligible: bool)
    | AttachComplete(completed: bool, port: int)
    | AttachRead(found: bool)

  datatype Task =
    | OpenLock(alias: Alias)
    | OpenRead(alias: Alias, found: bool)
    | OpenInsert(alias: Alias, id: SessionId)
    | OpenRollback(alias: Alias)
    | CloseLock(alias: Alias, force: bool)
    | CloseRead(alias: Alias, force: bool, seenId: Option<SessionId>)
    | CloseMark(alias: Alias, force: bool, id: SessionId)
    | CloseSettle(alias: Alias, force: bool, id: SessionId)
    | Shut(alias: Alias, caller: ShutFor, id: SessionId, op: nat, at: ShutStep)
    | RetryLock(alias: Alias)
    | RetryRead(alias: Alias, seen: Option<Found>)
    | RetrySettle(alias: Alias, id: SessionId, row: Row)
    | RetrySleep(alias: Alias, id: SessionId, row: Row)
    | RetryCheck(alias: Alias, gone: bool)
    | Attach(alias: Alias, on: AttachFor, id: SessionId, row: Row, op: nat, step: AttachStep)
    | ExitRead(alias: Alias, id: SessionId, tunnel: nat, found: bool)
    | ExitLock(alias: Alias, id: SessionId, tunnel: nat)
    | ExitCheck(alias: Alias, id: SessionId, tunnel: nat, latest: Option<Row>)
    | ExitClosing(alias: Alias, id: SessionId, tunnel: nat)
    | ExitWait(alias: Alias, id: SessionId)
    | ExitFresh(alias: Alias, id: SessionId, latest: Option<Row>)
    | ExitGiveUp(alias: Alias, id: SessionId)
    | ExitFinal(alias: Alias, id: SessionId, latest: Option<Row>)
    | ExitMark(alias: Alias, id: SessionId)
    | RecoverNext(todo: seq<Found>)
    | RecoverInspect(alias: Alias, id: SessionId, op: nat, todo: seq<Found>)
    | RecoverDelete(alias: Alias, id: SessionId, todo: seq<Found>)
    | RecoverClear(alias: Alias, id: SessionId, todo: seq<Found>)
    | RecoverMark(alias: Alias, id: SessionId, todo: seq<Found>)

  datatype State = State(
    // durable
    rows: Table,
    // SessionService and ProxyRegistry
    owned: set<SessionId>,                  // _capacity_owned
    tunnels: map<SessionId, nat>,           // _tunnels, each tunnel object numbered
    registry: map<SessionId, int>,
    counts: map<SessionId, nat>,            // _connected_counts
    timers: set<SessionId>,                 // keys of _grace_timers
    starts: set<SessionId>,                 // keys of _start_tasks
    locks: map<Alias, TaskId>,              // who holds each alias lock
    // running tasks
    opens: map<SessionId, OpenTask>,
    tasks: map<TaskId, Task>,
    recoverer: Option<TaskId>,              // set until recover_all returns; requests come after
    // bookkeeping for the theorems
    names: map<SessionId, Alias>,           // every id ever inserted
    unacquired: set<SessionId>,             // ids inserted by an open that never got to acquire
    settling: map<SessionId, TaskId>,       // who awaits a start task it took out of `starts`
    watched: map<nat, SessionId>,           // tunnels given a watcher
    backlog: set<SessionId>,                // records recover_all has not reached
    launched: set<SessionId>,               // ids whose remote start was ever asked for
    log: seq<Act>,
    next: nat,                              // fresh ids, tunnels, tasks and operations
    capacity: nat,
    startRows: nat)

  // ---- small updates ----------------------------------------------------

  ghost function Put(s: State, t: TaskId, task: Task): State {
    s.(tasks := s.tasks[t := task])
  }

  ghost function Done(s: State, t: TaskId): State {
    s.(tasks := s.tasks - {t})
  }

  ghost function Unlock(s: State, alias: Alias): State {
    s.(locks := s.locks - {alias})
  }

  ghost function Leave(s: State, t: TaskId, alias: Alias): State {
    s.(tasks := s.tasks - {t}, locks := s.locks - {alias})
  }

  ghost function Take(s: State, t: TaskId, alias: Alias, task: Task): State {
    s.(tasks := s.tasks[t := task], locks := s.locks[alias := t])
  }

  ghost function Spawn(s: State, task: Task): State {
    s.(tasks := s.tasks[s.next := task], next := s.next + 1)
  }

  /** The tail of _do_close once the row is gone. */
  ghost function Forget(s: State, id: SessionId): State {
    s.(timers := s.timers - {id}, owned := s.owned - {id}, registry := s.registry - {id}, counts := s.counts - {id})
  }

  /** A chain whose close failed stays in _tunnels. */
  ghost function Retain(s: State, id: SessionId, closed: bool): State {
    if closed then s else s.(tunnels := s.tunnels[id := s.next], next := s.next + 1)
  }

  ghost predicate AliasTaken(rows: Table, alias: Alias) {
    exists id :: id in rows && rows[id].alias == alias
  }

  ghost function FindByAlias(rows: Table, alias: Alias): (found: Option<SessionId>)
    ensures found.Some? ==> found.value in rows && rows[found.value].alias == alias
    ensures found.None? ==> !AliasTaken(rows, alias)
  {
    if AliasTaken(rows, alias) then
      var id :| id in rows && rows[id].alias == alias;
      Some(id)
    else None
  }

  ghost predicate Full(s: State) {
    |s.owned| >= s.capacity
  }

  // ---- open -------------------------------------------------------------

  ghost function StepOpenLock(s: State, t: TaskId, alias: Alias, c: Choice): State {
    if c.cancelled then Done(s, t)
    else if alias in s.locks then s
    else if !c.listed then Done(s, t)
    else Take(s, t, alias, OpenRead(alias, AliasTaken(s.rows, alias)))
  }

  ghost function StepOpenRead(s: State, t: TaskId, alias: Alias, found: bool, c: Choice): State {
    if c.cancelled || found || Full(s) then Leave(s, t, alias)
    else if AliasTaken(s.rows, alias) then Leave(s, t, alias)   // UNIQUE would be violated
    else
      var id := s.next;
      Put(s, t, OpenInsert(alias, id)).(
        rows := Insert(s.rows, id, alias),
        names := s.names[id := alias],
        unacquired := s.unacquired + {id},
        next := s.next + 1)
  }

  ghost function StepOpenInsert(s: State, t: TaskId, alias: Alias, id: SessionId, c: Choice): State {
    if c.cancelled then Leave(s, t, alias)
    else if Full(s) then
      Put(s, t, OpenRollback(alias)).(rows := Delete(s.rows, id), log := s.log + [RolledBack(id)])
    else
      Leave(s, t, alias).(
        owned := s.owned + {id},
        unacquired := s.unacquired - {id},
        starts := s.starts + {id},
        opens := s.opens[id := OpenTask(alias, Preparing, false, false, false, false, InternalError)])
  }

  // ---- _do_open, run by the start task of one id ------------------------

  ghost function At(s: State, id: SessionId, o: OpenTask, phase: OpenPhase): State {
    s.(opens := s.opens[id := o.(phase := phase)])
  }

  ghost function EndOpen(s: State, id: SessionId): State {
    s.(opens := s.opens - {id}, starts := s.starts - {id})
  }

  /** _open_failure_cleanup up to its first await, when mark_ready was not yet issued. */
  ghost function CleanUp(s: State, id: SessionId, o: OpenTask): State {
    At(s, id, o, Releasing(id in s.tunnels)).(
      registry := if o.published then s.registry - {id} else s.registry,
      tunnels := s.tunnels - {id})
  }

  ghost function Failing(o: OpenTask, c: Choice, code: ErrorCode): OpenTask {
    o.(crashed := !c.cancelled, code := if c.cancelled then InternalError else code)
  }

  ghost function FailOpen(s: State, id: SessionId, o: OpenTask, c: Choice, code: ErrorCode): State {
    CleanUp(s, id, Failing(o, c, code))
  }

  ghost function StepOpen(s: State, id: SessionId, c: Choice): State
    requires id in s.opens
  {
    var o := s.opens[id];
    match o.phase
    case Preparing =>
      var tried := if c.asked then s.(launched := s.launched + {id}) else s;
      if c.cancelled || !c.connected || !c.asked then FailOpen(tried, id, o, c, if c.asked then c.later else c.code)
      else
        At(tried, id, o.(started := true), Identifying).(rows := SetRemoteIdentity(s.rows, id, c.started.Persisted()))
    case Identifying =>
      if c.cancelled then FailOpen(s, id, o, c, InternalError)
      else At(s, id, o.(persisted := true), Forwarding)
    case Forwarding =>
      if c.cancelled || !c.healthy then FailOpen(s, id, o, c, c.later)
      else At(s, id, o, Forwarded(c.port)).(rows := SetTunnelIdentity(s.rows, id, c.port))
    case Forwarded(port) =>
      if c.cancelled then FailOpen(s, id, o, c, InternalError)
      else
        var installed := s.(tunnels := s.tunnels[id := s.next], next := s.next + 1);
        if id in s.registry then FailOpen(installed, id, o, c, InternalError)
        else At(installed, id, o.(published := true), Verifying).(
               registry := s.registry[id := port], watched := s.watched[s.next := id])
    case Verifying =>
      if c.cancelled || !c.healthy then FailOpen(s, id, o, c, c.later)
      else At(s, id, o, Publishing).(rows := MarkReady(s.rows, id))
    case Publishing =>
      At(s, id, o, if c.cancelled then Judging(Lookup(s.rows, id)) else Reading(Lookup(s.rows, id)))
    case Reading(found) =>
      if c.cancelled || found.None? then At(s, id, o.(crashed := !c.cancelled), Judging(Lookup(s.rows, id)))
      else EndOpen(s, id)
    case Judging(found) =>
      if c.cancelled || (found.Some? && found.value.state == Ready) then EndOpen(s, id) else CleanUp(s, id, o)
    case Releasing(tunnel) =>
      if c.cancelled then EndOpen(s, id)
      else At(s, id, o, StoppingRemote).(
             rows := if tunnel && c.drained then ClearTunnelIdentity(s.rows, id) else s.rows)
    case StoppingRemote =>
      if c.cancelled then EndOpen(s, id)
      else At(s, id, o, ClosingChain).(
             rows := if o.started && c.stopped && o.persisted then ClearRemoteIdentity(s.rows, id) else s.rows)
    case ClosingChain =>
      if c.cancelled then EndOpen(s, id)
      else At(Retain(s, id, c.closed), id, o, Rereading(Lookup(s.rows, id)))
    case Rereading(found) =>
      if c.cancelled then EndOpen(s, id)
      else if found.Some? && found.value.state != Ready then
        At(s, id, o, Marking).(rows := MarkError(s.rows, id, o.code))
      else if o.crashed then At(s, id, o, Late(Lookup(s.rows, id)))
      else EndOpen(s, id)
    case Marking =>
      if o.crashed && !c.cancelled then At(s, id, o, Late(Lookup(s.rows, id))) else EndOpen(s, id)
    case Late(found) =>
      if !c.cancelled && found.Some? && found.value.state == Starting then
        At(s, id, o, LateMarking).(rows := MarkError(s.rows, id, InternalError))
      else EndOpen(s, id)
    case LateMarking =>
      EndOpen(s, id)
  }

  // ---- close ------------------------------------------------------------

  ghost function StepCloseLock(s: State, t: TaskId, alias: Alias, force: bool, c: Choice): State {
    if c.cancelled then Done(s, t)
    else if alias in s.locks then s
    else Take(s, t, alias, CloseRead(alias, force, FindByAlias(s.rows, alias)))
  }

  ghost function StepCloseRead(
    s: State, t: TaskId, alias: Alias, force: bool, found: Option<SessionId>, c: Choice): State
  {
    if c.cancelled || found.None? then Leave(s, t, alias)
    else Put(s, t, CloseMark(alias, force, found.value)).(rows := MarkStopping(s.rows, found.value, c.reason))
  }

  ghost function StepCloseMark(s: State, t: TaskId, alias: Alias, force: bool, id: SessionId, c: Choice): State {
    if c.cancelled then Leave(s, t, alias)
    else
      var quiet := s.(timers := s.timers - {id}, registry := s.registry - {id});
      if id in s.starts then
        Put(quiet, t, CloseSettle(alias, force, id)).(
          starts := s.starts - {id}, settling := s.settling[id := t])
      else StartClose(quiet, t, alias, force, id)
  }

  /** Awaiting the start task swallows cancellation and ends only when the start task has ended. */
  ghost function StepCloseSettle(s: State, t: TaskId, alias: Alias, force: bool, id: SessionId): State {
    if id in s.opens then s else StartClose(s, t, alias, force, id)
  }

  ghost function StartClose(s: State, t: TaskId, alias: Alias, force: bool, id: SessionId): State {
    if force then StartShut(s, t, alias, Forced, id)
    else Spawn(Leave(s, t, alias), Shut(alias, Spawned, id, s.next, ShutStart))
  }

  // ---- _do_close --------------------------------------------------------

  ghost function StartShut(s: State, t: TaskId, alias: Alias, on: ShutFor, id: SessionId): State {
    Put(s, t, Shut(alias, on, id, s.next, ShutRead(Lookup(s.rows, id)))).(next := s.next + 1)
  }

  /** What the caller does once _do_close returned. */
  ghost function AfterShut(s: State, t: TaskId, alias: Alias, on: ShutFor, id: SessionId): State {
    match on
    case Spawned => Done(s, t)
    case Forced => Leave(s, t, alias)
    case Retrying => Put(s, t, RetryCheck(alias, id !in s.rows))
    case Recovering(todo) => Put(Unlock(s, alias), t, RecoverNext(todo))
  }

  ghost function DropShut(s: State, t: TaskId, alias: Alias, on: ShutFor): State {
    if on.Spawned? then Done(s, t) else Leave(s, t, alias)
  }

  datatype StopResult = StopResult(absent: bool, failed: bool, acts: seq<Act>)

  /** The remote part of _do_close. */
  ghost function StopRemote(row: Row, id: SessionId, op: nat, c: Choice): StopResult {
    if CanCloseWithoutInspection(row) then StopResult(true, false, [PreRemote(op, id)])
    else if !c.connected then StopResult(false, true, [])
    else if (row.identity.pid.Some? || c.inspection.running) && !c.stopped then StopResult(false, true, [])
    else StopResult(true, !c.removed, [Confirmed(op, id), Removing(op, id)])
  }

  ghost function StepShut(
    s: State, t: TaskId, alias: Alias, on: ShutFor, id: SessionId, op: nat, at: ShutStep, c: Choice): State
  {
    var k := (next: ShutStep) => Shut(alias, on, id, op, next);
    if c.cancelled then DropShut(s, t, alias, on)
    else
      match at
      case ShutStart => Put(s, t, k(ShutRead(Lookup(s.rows, id))))
      case ShutRead(latest) =>
        if latest.None? then AfterShut(Forget(s, id), t, alias, on, id)
        else Put(s, t, k(ShutRemote(latest.value, id in s.tunnels))).(tunnels := s.tunnels - {id})
      case ShutRemote(latest, tunnel) =>
        var r := StopRemote(latest, id, op, c);
        Put(s, t, k(ShutClosing(r.absent, r.failed, tunnel))).(log := s.log + r.acts)
      case ShutClosing(absent, failed, tunnel) =>
        Put(s, t, k(ShutClosed(absent, failed || !c.closed || (tunnel && !c.drained), !c.closed))).(
          rows := if tunnel && c.drained then ClearTunnelIdentity(s.rows, id) else s.rows)
      case ShutClosed(absent, failed, retain) =>
        Put(Retain(s, id, !retain || on.Forced?), t, k(ShutCleared(absent, failed))).(
          rows := if absent then ClearRemoteIdentity(s.rows, id) else s.rows)
      case ShutCleared(absent, failed) =>
        if !on.Forced? && (failed || !absent) then
          Put(s, t, k(ShutMark)).(rows := MarkError(s.rows, id, StopFailed))
        else
          Put(s, t, k(ShutDelete)).(rows := Delete(s.rows, id), log := s.log + [Deleted(op, id, on.Forced?)])
      case ShutMark => AfterShut(s, t, alias, on, id)
      case ShutDelete => AfterShut(Forget(s, id), t, alias, on, id)
  }

  // ---- retry ------------------------------------------------------------

  ghost function StepRetryLock(s: State, t: TaskId, alias: Alias, c: Choice): State {
    if c.cancelled then Done(s, t)
    else if alias in s.locks then s
    else
      var found := FindByAlias(s.rows, alias);
      Take(s, t, alias, RetryRead(alias, if found.Some? then Some(Found(found.value, s.rows[found.value])) else None))
  }

  ghost function StepRetryRead(s: State, t: TaskId, alias: Alias, seen: Option<Found>, c: Choice): State {
    if c.cancelled || seen.None? || seen.value.row.state != Error then Leave(s, t, alias)
    else
      var Found(id, row) := seen.value;
      if id in s.starts then
        Put(s, t, RetrySettle(alias, id, row)).(starts := s.starts - {id}, settling := s.settling[id := t])
      else StartRetry(s, t, alias, id, row, c)
  }

  ghost function StepRetrySettle(s: State, t: TaskId, alias: Alias, id: SessionId, row: Row, c: Choice): State {
    if id in s.opens then s else StartRetry(s, t, alias, id, row, c)
  }

  ghost function StartRetry(s: State, t: TaskId, alias: Alias, id: SessionId, row: Row, c: Choice): State {
    var quiet := s.(timers := s.timers - {id}, registry := s.registry - {id});
    if row.closeReason == None && !CanCloseWithoutInspection(row) then
      StartAttach(quiet, t, alias, ByRetry, id, row, c)
    else StartShut(quiet, t, alias, Retrying, id)
  }

  ghost function StepRetrySleep(s: State, t: TaskId, alias: Alias, id: SessionId, row: Row, c: Choice): State {
    if c.cancelled then Leave(s, t, alias) else StartAttach(s, t, alias, ByRetry, id, row, c)
  }

  ghost function StepRetryCheck(s: State, t: TaskId, alias: Alias, gone: bool, c: Choice): State {
    if c.cancelled || !gone then Leave(s, t, alias)
    else Put(Unlock(s, alias), t, OpenLock(alias))
  }

  // ---- _reattach_existing_session ---------------------------------------

  ghost function StartAttach(
    s: State, t: TaskId, alias: Alias, on: AttachFor, id: SessionId, row: Row, c: Choice): State
  {
    if id in s.tunnels then AttachFailed(s, t, alias, on, id, row, s.next, None, c)
    else
      Put(s, t, Attach(alias, on, id, row, s.next, AttachBegin(Recoverable(s.rows, id)))).(
        rows := BeginRecovery(s.rows, id), next := s.next + 1)
  }

  /** How the three callers take a failed attempt; `why` is None for anything but unavailability. */
  ghost function AttachFailed(
    s: State, t: TaskId, alias: Alias, on: AttachFor, id: SessionId, row: Row, op: nat,
    why: Option<Unavailable>, c: Choice): State
  {
    match on
    case ByRetry =>
      if why.None? && c.again then Put(s, t, RetrySleep(alias, id, row))
      else if why.None? || why.value == Absent then StartShut(s, t, alias, Retrying, id)
      else Leave(s, t, alias)
    case ByExit =>
      Put(Unlock(s, alias), t, if why.None? && c.again then ExitWait(alias, id) else ExitGiveUp(alias, id))
    case ByRecovery(todo) =>
      if why == Some(Absent) && (row.state == Starting || row.state == Error) then
        Put(s, t, RecoverDelete(alias, id, todo)).(
          rows := Delete(s.rows, id), log := s.log + [Deleted(op, id, false)])
      else if why == Some(Absent) then
        Put(s, t, RecoverClear(alias, id, todo)).(rows := ClearRemoteIdentity(s.rows, id))
      else if why.Some? || row.state != Error then
        Put(s, t, RecoverMark(alias, id, todo)).(rows := MarkError(s.rows, id, RecoveryFailed))
      else Put(Unlock(s, alias), t, RecoverNext(todo))
  }

  ghost function Attached(s: State, t: TaskId, alias: Alias, on: AttachFor, id: SessionId, c: Choice): State {
    match on
    case ByRecovery(todo) =>
      Put(Unlock(s, alias), t, RecoverNext(todo)).(timers := if c.timed then s.timers + {id} else s.timers)
    case _ => Leave(s, t, alias)
  }

  /** Closing an attempt's chain: a close error replaces whatever was being raised. */
  ghost function AttachGivesUp(
    s: State, t: TaskId, alias: Alias, on: AttachFor, id: SessionId, row: Row, op: nat,
    why: Option<Unavailable>, c: Choice): State
  {
    AttachFailed(Retain(s, id, c.closed), t, alias, on, id, row, op, if c.closed then why else None, c)
  }

  ghost function StepAttach(
    s: State, t: TaskId, alias: Alias, on: AttachFor, id: SessionId, row: Row, op: nat, step: AttachStep,
    c: Choice): State
  {
    match step
    case AttachBegin(eligible) =>
      if c.cancelled then Leave(Retain(s, id, !eligible || c.closed), t, alias)
      else if !eligible then AttachFailed(s, t, alias, on, id, row, op, Some(NotEligible), c)
      else if !c.connected then AttachGivesUp(s, t, alias, on, id, row, op, None, c)
      else
        (match IdentityFromInspection(row, c.inspection)
         case Err(why) =>
           if why == Absent then
             AttachGivesUp(s.(log := s.log + [Confirmed(op, id), Removing(op, id)]), t, alias, on, id, row, op,
                           if c.removed then Some(Absent) else None, c)
           else AttachGivesUp(s, t, alias, on, id, row, op, Some(why), c)
         case Ok(found) =>
           if !c.healthy then AttachGivesUp(s, t, alias, on, id, row, op, None, c)
           else
             Put(s, t, Attach(alias, on, id, row, op, AttachComplete(Recoverable(s.rows, id), c.port))).(
               rows := CompleteRecovery(s.rows, id, found, c.port)))
    case AttachComplete(completed, port) =>
      if c.cancelled then Leave(Retain(s, id, c.closed), t, alias)
      else if !c.timely && !on.ByRecovery? then
        AttachGivesUp(s, t, alias, on, id, row, op, None, c.(again := false))
      else if !completed then AttachGivesUp(s, t, alias, on, id, row, op, Some(NotEligible), c)
      else
        var installed := s.(tunnels := s.tunnels[id := s.next], next := s.next + 1);
        if id in s.registry then AttachFailed(installed, t, alias, on, id, row, op, None, c)
        else
          Put(installed, t, Attach(alias, on, id, row, op, AttachRead(id in s.rows))).(
            registry := s.registry[id := port], watched := s.watched[s.next := id])
    case AttachRead(found) =>
      if c.cancelled then Leave(s, t, alias)
      else if !c.timely && !on.ByRecovery? then
        AttachFailed(s, t, alias, on, id, row, op, None, c.(again := false))
      else if !found then AttachFailed(s, t, alias, on, id, row, op, None, c)
      else Attached(s, t, alias, on, id, c)
  }

  // ---- on_tunnel_exit ---------------------------------------------------

  ghost function StepExitRead(
    s: State, t: TaskId, alias: Alias, id: SessionId, tunnel: nat, found: bool, c: Choice): State
  {
    if c.cancelled || !found then Done(s, t) else Put(s, t, ExitLock(alias, id, tunnel))
  }

  ghost function StepExitLock(s: State, t: TaskId, alias: Alias, id: SessionId, tunnel: nat, c: Choice): State {
    if c.cancelled then Done(s, t)
    else if alias in s.locks then s
    else Take(s, t, alias, ExitCheck(alias, id, tunnel, Lookup(s.rows, id)))
  }

  ghost predicate Withdrawn(latest: Option<Row>) {
    latest.None? || latest.value.state == Stopping
  }

  ghost function StepExitCheck(
    s: State, t: TaskId, alias: Alias, id: SessionId, tunnel: nat, latest: Option<Row>, c: Choice): State
  {
    if c.cancelled || Withdrawn(latest) then Leave(s, t, alias)
    else if id !in s.tunnels || s.tunnels[id] != tunnel then Leave(s, t, alias)
    else
      Put(s, t, ExitClosing(alias, id, tunnel)).(registry := s.registry - {id}, tunnels := s.tunnels - {id})
  }

  ghost function StepExitClosing(s: State, t: TaskId, alias: Alias, id: SessionId, tunnel: nat, c: Choice): State {
    if c.cancelled then Leave(s, t, alias)
    else
      Put(Unlock(s, alias), t, ExitWait(alias, id)).(
        tunnels := if c.closed then s.tunnels else s.tunnels[id := tunnel])
  }

  ghost function StepExitWait(s: State, t: TaskId, alias: Alias, id: SessionId, c: Choice): State {
    if c.cancelled then Done(s, t)
    else if alias in s.locks then (if c.again then s else Put(s, t, ExitGiveUp(alias, id)))
    else Take(s, t, alias, ExitFresh(alias, id, Lookup(s.rows, id)))
  }

  ghost function StepExitFresh(
    s: State, t: TaskId, alias: Alias, id: SessionId, latest: Option<Row>, c: Choice): State
  {
    if c.cancelled then Leave(s, t, alias)
    else if Withdrawn(latest) then Put(Unlock(s, alias), t, ExitGiveUp(alias, id))
    else StartAttach(s, t, alias, ByExit, id, latest.value, c)
  }

  ghost function StepExitGiveUp(s: State, t: TaskId, alias: Alias, id: SessionId, c: Choice): State {
    if c.cancelled then Done(s, t)
    else if alias in s.locks then s
    else Take(s, t, alias, ExitFinal(alias, id, Lookup(s.rows, id)))
  }

  ghost function StepExitFinal(
    s: State, t: TaskId, alias: Alias, id: SessionId, latest: Option<Row>, c: Choice): State
  {
    if c.cancelled || Withdrawn(latest) then Leave(s, t, alias)
    else Put(s, t, ExitMark(alias, id)).(rows := MarkError(s.rows, id, TunnelLost))
  }

  // ---- recover_all ------------------------------------------------------

  ghost function StepRecoverNext(s: State, t: TaskId, todo: seq<Found>, c: Choice): State {
    if todo == [] then Done(s, t).(recoverer := None)
    else
      var Found(id, row) := todo[0];
      var alias := row.alias;
      if alias in s.locks then s
      else
        var held := s.(locks := s.locks[alias := t], backlog := s.backlog - {id});
        if CanReattach(row) then StartAttach(held, t, alias, ByRecovery(todo[1..]), id, row, c)
        else if row.state == Stopping then StartShut(held, t, alias, Recovering(todo[1..]), id)
        else Put(held, t, RecoverInspect(alias, id, s.next, todo[1..])).(next := s.next + 1)
  }

  ghost function StepRecoverInspect(
    s: State, t: TaskId, alias: Alias, id: SessionId, op: nat, todo: seq<Found>, c: Choice): State
  {
    if !c.connected || c.inspection.running then Put(Unlock(Retain(s, id, c.closed), alias), t, RecoverNext(todo))
    else
      var asked := s.(log := s.log + [Confirmed(op, id), Removing(op, id)]);
      if c.removed && c.closed then
        Put(asked, t, RecoverDelete(alias, id, todo)).(
          rows := Delete(s.rows, id), log := asked.log + [Deleted(op, id, false)])
      else Put(Unlock(Retain(asked, id, c.closed), alias), t, RecoverNext(todo))
  }

  ghost function StepRecoverDelete(s: State, t: TaskId, alias: Alias, id: SessionId, todo: seq<Found>): State {
    Put(Unlock(s, alias), t, RecoverNext(todo)).(owned := s.owned - {id})
  }

  ghost function StepRecoverClear(s: State, t: TaskId, alias: Alias, id: SessionId, todo: seq<Found>): State {
    Put(s, t, RecoverMark(alias, id, todo)).(rows := MarkError(s.rows, id, RecoveryFailed))
  }

  // ---- scheduling -------------------------------------------------------

  ghost function StepTask(s: State, t: TaskId, c: Choice): State
    requires t in s.tasks
  {
    match s.tasks[t]
    case OpenLock(alias) => StepOpenLock(s, t, alias, c)
    case OpenRead(alias, found) => StepOpenRead(s, t, alias, found, c)
    case OpenInsert(alias, id) => StepOpenInsert(s, t, alias, id, c)
    case OpenRollback(alias) => Leave(s, t, alias)
    case CloseLock(alias, force) => StepCloseLock(s, t, alias, force, c)
    case CloseRead(alias, force, found) => StepCloseRead(s, t, alias, force, found, c)
    case CloseMark(alias, force, id) => StepCloseMark(s, t, alias, force, id, c)
    case CloseSettle(alias, force, id) => StepCloseSettle(s, t, alias, force, id)
    case Shut(alias, on, id, op, at) => StepShut(s, t, alias, on, id, op, at, c)
    case RetryLock(alias) => StepRetryLock(s, t, alias, c)
    case RetryRead(alias, seen) => StepRetryRead(s, t, alias, seen, c)
    case RetrySettle(alias, id, row) => StepRetrySettle(s, t, alias, id, row, c)
    case RetrySleep(alias, id, row) => StepRetrySleep(s, t, alias, id, row, c)
    case RetryCheck(alias, gone) => StepRetryCheck(s, t, alias, gone, c)
    case Attach(alias, on, id, row, op, step) => StepAttach(s, t, alias, on, id, row, op, step, c)
    case ExitRead(alias, id, tunnel, found) => StepExitRead(s, t, alias, id, tunnel, found, c)
    case ExitLock(alias, id, tunnel) => StepExitLock(s, t, alias, id, tunnel, c)
    case ExitCheck(alias, id, tunnel, latest) => StepExitCheck(s, t, alias, id, tunnel, latest, c)
    case ExitClosing(alias, id, tunnel) => StepExitClosing(s, t, alias, id, tunnel, c)
    case ExitWait(alias, id) => StepExitWait(s, t, alias, id, c)
    case ExitFresh(alias, id, latest) => StepExitFresh(s, t, alias, id, latest, c)
    case ExitGiveUp(alias, id) => StepExitGiveUp(s, t, alias, id, c)
    case ExitFinal(alias, id, latest) => StepExitFinal(s, t, alias, id, latest, c)
    case ExitMark(alias, id) => Leave(s, t, alias)
    case RecoverNext(todo) => StepRecoverNext(s, t, todo, c)
    case RecoverInspect(alias, id, op, todo) => StepRecoverInspect(s, t, alias, id, op, todo, c)
    case RecoverDelete(alias, id, todo) => StepRecoverDelete(s, t, alias, id, todo)
    case RecoverClear(alias, id, todo) => StepRecoverClear(s, t, alias, id, todo)
    case RecoverMark(alias, id, todo) => Put(Unlock(s, alias), t, RecoverNext(todo))
  }

  datatype Event =
    | Turn(task: TaskId, answers: Choice)          // a task goes on after its await
    | OpenTurn(id: SessionId, answers: Choice)     // a start task goes on after its await
    | CallOpen(alias: Alias)
    | CallClose(alias: Alias, force: bool)         // requests; if not forced, expired timers and removed aliases
    | CallRetry(alias: Alias)
    | TunnelDown(tunnel: nat)                      // a watcher sees its listener close
    | Connected(id: SessionId)
    | Disconnected(id: SessionId)
    | TimerGone(id: SessionId)                     // a grace watcher ends or is cancelled
    | Restart(order: seq<Found>)                   // the process dies and starts again

  ghost function StepConnected(s: State, id: SessionId): State {
    if s.recoverer.Some? || id !in s.owned then s
    else s.(timers := s.timers - {id}, counts := s.counts[id := (if id in s.counts then s.counts[id] else 0) + 1])
  }

  ghost function StepDisconnected(s: State, id: SessionId): State {
    if s.recoverer.Some? then s
    else if id !in s.owned then s.(timers := s.timers - {id}, counts := s.counts - {id})
    else
      var count := if id in s.counts then s.counts[id] else 0;
      var left := if count > 0 then count - 1 else 0;
      s.(counts := if count > 0 then s.counts[id := left] else s.counts,
         timers := if left == 0 then s.timers + {id} else s.timers)
  }

  function IdsOf(records: seq<Found>): (ids: seq<SessionId>)
    ensures |ids| == |records| && forall i :: 0 <= i < |ids| ==> ids[i] == records[i].id
  {
    seq(|records|, i requires 0 <= i < |records| => records[i].id)
  }

  /** The records are the rows, each listed once. */
  ghost predicate Lists(rows: Table, records: seq<Found>) {
    && Listing(rows, IdsOf(records))
    && forall i :: 0 <= i < |records| ==> records[i].id in rows && rows[records[i].id] == records[i].row
  }

  /** A started process, with recover_all past its first statement and about to take up the records. */
  ghost function Boot(
    rows: Table, order: seq<Found>, names: map<SessionId, Alias>, launched: set<SessionId>, log: seq<Act>, next: nat,
    capacity: nat): State
  {
    State(rows, rows.Keys, map[], map[], map[], {}, {}, map[],
          map[], map[next := RecoverNext(order)], Some(next),
          names, {}, map[], map[], rows.Keys, launched, log, next + 1, capacity, |rows|)
  }

  ghost function Apply(s: State, e: Event): State {
    match e
    case Turn(t, c) => if t in s.tasks then StepTask(s, t, c) else s
    case OpenTurn(id, c) => if id in s.opens then StepOpen(s, id, c) else s
    case CallOpen(alias) => if s.recoverer.None? then Spawn(s, OpenLock(alias)) else s
    case CallClose(alias, force) =>
      if force && s.recoverer.Some? then s else Spawn(s, CloseLock(alias, force))
    case CallRetry(alias) => if s.recoverer.None? then Spawn(s, RetryLock(alias)) else s
    case TunnelDown(k) =>
      if k in s.watched && s.watched[k] in s.names then
        var id := s.watched[k];
        Spawn(s, ExitRead(s.names[id], id, k, id in s.rows))
      else s
    case Connected(id) => StepConnected(s, id)
    case Disconnected(id) => StepDisconnected(s, id)
    case TimerGone(id) => s.(timers := s.timers - {id})
    case Restart(order) =>
      if Lists(s.rows, order) then Boot(s.rows, order, s.names, s.launched, s.log, s.next, s.capacity) else s
  }

  /** A whole run. */
  ghost function Run(s: State, events: seq<Event>): State
    decreases |events|
  {
    if events == [] then s else Apply(Run(s, events[..|events| - 1]), events[|events| - 1])
  }
}
