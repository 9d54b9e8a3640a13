/** What every reachable state of the lifecycle satisfies, and what one step never does to the
    tasks that did not take it. */
module LifecycleInvariant {
  import opened Wrappers
  import opened Records
  import opened Database
  import opened Lifecycle

  // ---- shared state -----------------------------------------------------

  ghost predicate RowsNamed(rows: Table, names: map<SessionId, Alias>) {
    forall id :: id in rows ==> id in names && names[id] == rows[id].alias
  }

  /** Every row holds a slot, except those whose open was cancelled, or still is, before acquiring. */
  ghost predicate RowsReserved(rows: Table, owned: set<SessionId>, unacquired: set<SessionId>) {
    forall id :: id in rows ==> id in owned || id in unacquired
  }

  ghost predicate OneRowPerAlias(rows: Table) {
    forall i, j :: i in rows && j in rows && rows[i].alias == rows[j].alias ==> i == j
  }

  ghost predicate LedgerBounded(owned: set<SessionId>, capacity: nat, startRows: nat) {
    |owned| <= (if capacity >= startRows then capacity else startRows)
  }

  /** A recorded close reason leaves only STOPPING and ERROR, and STOPPING has one. */
  ghost predicate CloseIntent(rows: Table) {
    forall id :: id in rows ==>
      && (rows[id].closeReason.Some? ==> rows[id].state == Stopping || rows[id].state == Error)
      && (rows[id].state == Stopping ==> rows[id].closeReason.Some?)
  }

  ghost predicate TablesOwned(
    registry: map<SessionId, int>, counts: map<SessionId, nat>, timers: set<SessionId>,
    opens: map<SessionId, OpenTask>, owned: set<SessionId>)
  {
    registry.Keys <= owned && counts.Keys <= owned && timers <= owned && opens.Keys <= owned
  }

  ghost predicate IdsKnown(owned: set<SessionId>, unacquired: set<SessionId>, names: map<SessionId, Alias>) {
    && owned <= names.Keys
    && unacquired <= names.Keys
    && owned !! unacquired
  }

  ghost predicate UnacquiredUntouched(rows: Table, unacquired: set<SessionId>) {
    forall id :: id in unacquired && id in rows && rows[id].closeReason == None ==> rows[id].state == Starting
  }

  ghost predicate BacklogKnown(
    backlog: set<SessionId>, recoverer: Option<TaskId>, names: map<SessionId, Alias>,
    unacquired: set<SessionId>, opens: map<SessionId, OpenTask>)
  {
    forall id :: id in backlog ==> recoverer.Some? && id in names && id !in unacquired && id !in opens
  }

  ghost predicate BacklogQuiet(
    backlog: set<SessionId>, registry: map<SessionId, int>, counts: map<SessionId, nat>, timers: set<SessionId>)
  {
    forall id :: id in backlog ==> id !in registry && id !in counts && id !in timers
  }

  /** No start task is about to persist an identity for `id`. */
  ghost predicate Settled(opens: map<SessionId, OpenTask>, id: SessionId) {
    id in opens ==> opens[id].phase != Preparing
  }

  ghost predicate WatchedKnown(
    watched: map<nat, SessionId>, names: map<SessionId, Alias>, unacquired: set<SessionId>,
    opens: map<SessionId, OpenTask>, backlog: set<SessionId>)
  {
    forall k :: k in watched ==>
      var id := watched[k];
      id in names && id !in unacquired && Settled(opens, id) && id !in backlog
  }

  ghost predicate NamesFresh(names: map<SessionId, Alias>, next: nat) {
    forall id :: id in names ==> id < next
  }

  ghost predicate TasksFresh(tasks: map<TaskId, Task>, next: nat) {
    forall t :: t in tasks ==> t < next
  }

  ghost predicate Awaits(task: Task, id: SessionId) {
    (task.CloseSettle? || task.RetrySettle?) && task.id == id
  }

  /** A running start task is in _start_tasks, or awaited by the task that took it out. */
  ghost predicate StartsAwaited(
    opens: map<SessionId, OpenTask>, starts: set<SessionId>, settling: map<SessionId, TaskId>, tasks: map<TaskId, Task>)
  {
    forall id :: id in opens ==>
      id in starts || (id in settling && settling[id] in tasks && Awaits(tasks[settling[id]], id))
  }

  ghost predicate Justified(log: seq<Act>, op: nat, id: SessionId) {
    Confirmed(op, id) in log || PreRemote(op, id) in log
  }

  /** Unforced deletions and remote removals carry evidence gathered by the same operation before. */
  ghost predicate LogJustified(log: seq<Act>) {
    forall i :: 0 <= i < |log| ==>
      && (log[i].Deleted? && !log[i].forced ==> Justified(log[..i], log[i].op, log[i].id))
      && (log[i].Removing? ==> Confirmed(log[i].op, log[i].id) in log[..i])
  }

  ghost predicate RowsOk(s: State) {
    && RowsNamed(s.rows, s.names)
    && RowsReserved(s.rows, s.owned, s.unacquired)
    && OneRowPerAlias(s.rows)
    && CloseIntent(s.rows)
    && UnacquiredUntouched(s.rows, s.unacquired)
  }

  ghost predicate TablesOk(s: State) {
    && LedgerBounded(s.owned, s.capacity, s.startRows)
    && TablesOwned(s.registry, s.counts, s.timers, s.opens, s.owned)
    && IdsKnown(s.owned, s.unacquired, s.names)
    && BacklogKnown(s.backlog, s.recoverer, s.names, s.unacquired, s.opens)
    && BacklogQuiet(s.backlog, s.registry, s.counts, s.timers)
    && WatchedKnown(s.watched, s.names, s.unacquired, s.opens, s.backlog)
    && NamesFresh(s.names, s.next)
  }

  ghost predicate Shared(s: State) {
    && RowsOk(s)
    && TablesOk(s)
    && LogJustified(s.log)
    && TasksFresh(s.tasks, s.next)
    && StartsAwaited(s.opens, s.starts, s.settling, s.tasks)
  }

  // ---- per task ---------------------------------------------------------

  ghost predicate Mine(s: State, t: TaskId, alias: Alias) {
    alias in s.locks && s.locks[alias] == t
  }

  ghost predicate Known(s: State, id: SessionId, alias: Alias) {
    id in s.names && s.names[id] == alias
  }

  /** The row, if still there, has its close reason recorded. */
  ghost predicate Doomed(s: State, id: SessionId) {
    id in s.rows ==> s.rows[id].closeReason.Some?
  }

  /** Past the reservation, past the start task's identity, and not waiting for recover_all. */
  ghost predicate Attachable(s: State, id: SessionId) {
    id !in s.unacquired && Settled(s.opens, id) && id !in s.backlog
  }

  /** The snapshot knows every identity field the row has. */
  ghost predicate Coherent(s: State, id: SessionId, row: Row) {
    id in s.rows ==> Within(s.rows[id].identity, row.identity)
  }

  ghost predicate Quiet(s: State, id: SessionId) {
    id !in s.registry && id !in s.counts && id !in s.timers
  }

  ghost predicate Listed(todo: seq<Found>, id: SessionId) {
    exists i :: 0 <= i < |todo| && todo[i].id == id
  }

  ghost predicate TodoOk(s: State, t: TaskId, todo: seq<Found>) {
    && s.recoverer == Some(t)
    && (forall i :: 0 <= i < |todo| ==>
          && todo[i].id in s.backlog
          && Known(s, todo[i].id, todo[i].row.alias)
          && Coherent(s, todo[i].id, todo[i].row))
    && (forall i, j :: 0 <= i < j < |todo| ==> todo[i].id != todo[j].id)
    && (forall id :: id in s.backlog ==> Listed(todo, id))
  }

  ghost predicate ShutOk(s: State, t: TaskId, alias: Alias, caller: ShutFor, id: SessionId, op: nat, at: ShutStep) {
    && Known(s, id, alias)
    && id !in s.opens
    && (caller.Spawned? || id in s.unacquired ==> Doomed(s, id))
    && (!caller.Spawned? ==> Mine(s, t, alias))
    && (caller.Recovering? ==> TodoOk(s, t, caller.todo))
    && (at.ShutRead? && at.latest.None? ==> id !in s.rows)
    && (at.ShutClosing? && at.absent ==> Justified(s.log, op, id))
    && (at.ShutClosed? && at.absent ==> Justified(s.log, op, id))
    && (at.ShutCleared? && at.absent ==> Justified(s.log, op, id))
    && (at.ShutDelete? ==> id !in s.rows)
  }

  ghost predicate RetryOk(s: State, t: TaskId, alias: Alias, id: SessionId, row: Row) {
    && Mine(s, t, alias)
    && Known(s, id, alias)
    && Settled(s.opens, id)
    && id !in s.backlog
    && Coherent(s, id, row)
    && (if row.closeReason == None then id !in s.unacquired else Doomed(s, id))
  }

  ghost predicate AttachOk(
    s: State, t: TaskId, alias: Alias, on: AttachFor, id: SessionId, row: Row, step: AttachStep)
  {
    && Mine(s, t, alias)
    && Known(s, id, alias)
    && Attachable(s, id)
    && (step.AttachBegin? ==> Coherent(s, id, row))
    && (!on.ByExit? ==> id !in s.opens)
    && (on.ByRetry? ==> row.closeReason == None)
    && (on.ByRetry? && !step.AttachRead? ==> id !in s.registry)
    && (step.AttachRead? ==> step.found)
    && (on.ByRecovery? ==> TodoOk(s, t, on.todo))
    && (on.ByRecovery? && !step.AttachRead? ==> Quiet(s, id))
    && (step.AttachComplete? ==> step.completed)
    && (step != AttachBegin(false) ==> id in s.rows && s.rows[id].closeReason == None)
  }

  ghost predicate ExitOk(s: State, alias: Alias, id: SessionId) {
    Known(s, id, alias) && Attachable(s, id)
  }

  ghost predicate RecoverOk(s: State, t: TaskId, alias: Alias, id: SessionId) {
    && Mine(s, t, alias)
    && Known(s, id, alias)
    && Attachable(s, id)
    && id !in s.opens
  }

  ghost predicate IsOpen(task: Task) {
    task.OpenLock? || task.OpenRead? || task.OpenInsert? || task.OpenRollback?
  }

  ghost predicate OpenTaskOk(s: State, t: TaskId, task: Task)
    requires IsOpen(task)
  {
    match task
    case OpenLock(alias) => true
    case OpenRead(alias, found) => Mine(s, t, alias) && (!found ==> !AliasTaken(s.rows, alias))
    case OpenInsert(alias, id) =>
      && Mine(s, t, alias) && Known(s, id, alias) && id in s.unacquired && id !in s.opens
      && id in s.rows && s.rows[id] == NewRow(alias)
    case OpenRollback(alias) => Mine(s, t, alias)
  }

  ghost predicate IsClose(task: Task) {
    task.CloseLock? || task.CloseRead? || task.CloseMark? || task.CloseSettle?
  }

  ghost predicate CloseTaskOk(s: State, t: TaskId, task: Task)
    requires IsClose(task)
  {
    match task
    case CloseLock(alias, force) => true
    case CloseRead(alias, force, seenId) => Mine(s, t, alias) && (seenId.Some? ==> Known(s, seenId.value, alias))
    case CloseMark(alias, force, id) => Mine(s, t, alias) && Known(s, id, alias) && Doomed(s, id)
    case CloseSettle(alias, force, id) => Mine(s, t, alias) && Known(s, id, alias) && Doomed(s, id)
  }

  ghost predicate IsRetry(task: Task) {
    task.RetryLock? || task.RetryRead? || task.RetrySettle? || task.RetrySleep? || task.RetryCheck?
  }

  ghost predicate RetryTaskOk(s: State, t: TaskId, task: Task)
    requires IsRetry(task)
  {
    match task
    case RetryLock(alias) => s.recoverer.None?
    case RetryRead(alias, seen) =>
      && Mine(s, t, alias)
      && (seen.Some? && seen.value.row.state == Error ==> RetryOk(s, t, alias, seen.value.id, seen.value.row))
    case RetrySettle(alias, id, row) => RetryOk(s, t, alias, id, row)
    case RetrySleep(alias, id, row) => 
      RetryOk(s, t, alias, id, row) && row.closeReason == None && id !in s.opens && id !in s.registry
    case RetryCheck(alias, gone) => Mine(s, t, alias)
  }

  ghost predicate IsExit(task: Task) {
    || task.ExitRead? || task.ExitLock? || task.ExitCheck? || task.ExitClosing? || task.ExitWait?
    || task.ExitFresh? || task.ExitGiveUp? || task.ExitFinal? || task.ExitMark?
  }

  ghost predicate ExitTaskOk(s: State, t: TaskId, task: Task)
    requires IsExit(task)
  {
    && ExitOk(s, task.alias, task.id)
    && (task.ExitCheck? || task.ExitClosing? || task.ExitFresh? || task.ExitFinal? || task.ExitMark? ==>
          Mine(s, t, task.alias))
    && (task.ExitFresh? && task.latest.Some? ==> Coherent(s, task.id, task.latest.value))
  }

  ghost predicate IsRecover(task: Task) {
    task.RecoverNext? || task.RecoverInspect? || task.RecoverDelete? || task.RecoverClear? || task.RecoverMark?
  }

  ghost predicate RecoverTaskOk(s: State, t: TaskId, task: Task)
    requires IsRecover(task)
  {
    && TodoOk(s, t, task.todo)
    && (!task.RecoverNext? ==> RecoverOk(s, t, task.alias, task.id))
    && (task.RecoverInspect? || task.RecoverDelete? ==> Quiet(s, task.id))
    && (task.RecoverDelete? ==> task.id !in s.rows)
  }

  ghost predicate TaskOk(s: State, t: TaskId, task: Task) {
    if IsOpen(task) then OpenTaskOk(s, t, task)
    else if IsClose(task) then CloseTaskOk(s, t, task)
    else if IsRetry(task) then RetryTaskOk(s, t, task)
    else if IsExit(task) then ExitTaskOk(s, t, task)
    else if IsRecover(task) then RecoverTaskOk(s, t, task)
    else if task.Shut? then ShutOk(s, t, task.alias, task.caller, task.id, task.op, task.at)
    else AttachOk(s, t, task.alias, task.on, task.id, task.row, task.step)
  }

  /** What holds of a start task. */
  ghost predicate OpenOk(s: State, id: SessionId, o: OpenTask) {
    && Known(s, id, o.alias)
    && id !in s.backlog
    && (o.phase == Preparing && id in s.rows ==> s.rows[id].identity == NO_IDENTITY && s.rows[id].state != Error)
  }

  ghost predicate Inv(s: State) {
    && Shared(s)
    && (forall t :: t in s.tasks ==> TaskOk(s, t, s.tasks[t]))
    && (forall id :: id in s.opens ==> OpenOk(s, id, s.opens[id]))
  }

  // ---- interference -----------------------------------------------------

  datatype Actor = ByTask(t: TaskId) | ByOpen(id: SessionId) | ByWorld

  ghost predicate Holds(s: State, a: Actor, alias: Alias) {
    a.ByTask? && Mine(s, a.t, alias)
  }

  ghost predicate KeepsLocks(s: State, locks: map<Alias, TaskId>, a: Actor) {
    forall alias :: alias in s.locks && a != ByTask(s.locks[alias]) ==>
      alias in locks && locks[alias] == s.locks[alias]
  }

  ghost predicate KeepsNames(s: State, names: map<SessionId, Alias>) {
    forall id :: id in s.names ==> id in names && names[id] == s.names[id]
  }

  /** How one step may change one row another task relies on. */
  ghost predicate KeepsRow(s: State, r: Row, r': Row, a: Actor, id: SessionId) {
    && r'.alias == r.alias
    && (r.closeReason.Some? ==> r'.closeReason.Some?)
    && (r.closeReason.None? && r'.closeReason.Some? ==> Holds(s, a, r.alias))
    && (r'.identity == r.identity || r'.identity == NO_IDENTITY
        || (a == ByOpen(id) && id in s.opens && s.opens[id].phase == Preparing)
        || (Holds(s, a, r.alias) && Attachable(s, id)))
    && WriteOnce(r.identity, r'.identity)
    && (r'.state == Error ==> r.state == Error || Settled(s.opens, id))
    && (r != r' ==> Holds(s, a, r.alias) || id !in s.unacquired || r.closeReason.Some?)
  }

  ghost predicate KeepsRows(s: State, rows: Table, a: Actor) {
    && (forall id :: id in rows && id !in s.rows ==> id !in s.names && Holds(s, a, rows[id].alias))
    && (forall id :: id in s.rows && id !in rows ==> s.rows[id].closeReason.Some? || Holds(s, a, s.rows[id].alias))
    && (forall id :: id in s.rows && id in rows ==> KeepsRow(s, s.rows[id], rows[id], a, id))
  }

  ghost predicate KeepsOpens(s: State, opens: map<SessionId, OpenTask>, a: Actor) {
    && (forall id :: id in opens && id !in s.opens ==>
          id in s.unacquired && id in s.rows && s.rows[id].closeReason.None? && Holds(s, a, s.rows[id].alias))
    && (forall id :: id in opens && id in s.opens && opens[id].phase == Preparing ==> s.opens[id].phase == Preparing)
  }

  ghost predicate KeepsOwned(s: State, owned: set<SessionId>) {
    forall id :: id in s.owned && id !in owned ==> id !in s.rows && id !in s.opens
  }

  ghost predicate KeepsQuiet(
    s: State, registry: map<SessionId, int>, counts: map<SessionId, nat>, timers: set<SessionId>, a: Actor)
  {
    && (forall id :: id in registry && id !in s.registry ==>
          id in s.opens || (id in s.names && Holds(s, a, s.names[id])))
    && (forall id :: id in counts && id !in s.counts ==> s.recoverer.None?)
    && (forall id :: id in timers && id !in s.timers ==>
          s.recoverer.None? || (id in s.names && Holds(s, a, s.names[id])))
  }

  ghost predicate KeepsRecovery(s: State, recoverer: Option<TaskId>, backlog: set<SessionId>, a: Actor) {
    && (s.recoverer.None? || a != ByTask(s.recoverer.value) ==> recoverer == s.recoverer && backlog == s.backlog)
    && backlog <= s.backlog
  }

  ghost predicate KeepsUnacquired(s: State, unacquired: set<SessionId>, a: Actor) {
    && (unacquired == s.unacquired
        || (a.ByTask? && a.t in s.tasks && (s.tasks[a.t].OpenRead? || s.tasks[a.t].OpenInsert?)))
    && (forall id :: id in unacquired && id !in s.unacquired ==> id !in s.names)
    && (forall id :: id in s.unacquired && id !in unacquired ==> id in s.names && Holds(s, a, s.names[id]))
  }

  ghost predicate KeepsTasks(s: State, tasks: map<TaskId, Task>, a: Actor) {
    forall t :: t in s.tasks && a != ByTask(t) ==> t in tasks && tasks[t] == s.tasks[t]
  }

  ghost predicate KeepsLog(log: seq<Act>, log': seq<Act>) {
    |log| <= |log'| && (forall act :: act in log ==> act in log')
  }

  /** `log` has grown beyond `earlier` by an entry saying why the row of `id` went. */
  ghost predicate DeletionLogged(earlier: seq<Act>, log: seq<Act>, id: SessionId) {
    && |log| > |earlier|
    && (log[|log| - 1] == RolledBack(id) || (log[|log| - 1].Deleted? && log[|log| - 1].id == id))
  }

  ghost predicate RowsRecorded(before: Table, rows: Table, earlier: seq<Act>, log: seq<Act>) {
    forall id :: id in before && id !in rows ==> DeletionLogged(earlier, log, id)
  }

  ghost predicate Guarantee(s: State, s': State, a: Actor) {
    && KeepsLocks(s, s'.locks, a)
    && KeepsTasks(s, s'.tasks, a)
    && KeepsNames(s, s'.names)
    && KeepsRows(s, s'.rows, a)
    && RowsRecorded(s.rows, s'.rows, s.log, s'.log)
    && KeepsOpens(s, s'.opens, a)
    && KeepsOwned(s, s'.owned)
    && KeepsQuiet(s, s'.registry, s'.counts, s'.timers, a)
    && KeepsRecovery(s, s'.recoverer, s'.backlog, a)
    && KeepsUnacquired(s, s'.unacquired, a)
    && KeepsLog(s.log, s'.log)
  }

  /** The acting task, and tasks it created, are fine again; nobody else's code moved. */
  ghost predicate Moves(s: State, s': State, a: Actor) {
    && (forall t :: t in s'.tasks ==>
          (t in s.tasks && a != ByTask(t) && s'.tasks[t] == s.tasks[t]) || TaskOk(s', t, s'.tasks[t]))
    && (forall id :: id in s'.opens ==>
          (id in s.opens && a != ByOpen(id) && s'.opens[id] == s.opens[id]) || OpenOk(s', id, s'.opens[id]))
  }

  ghost predicate Core(s: State, s': State, a: Actor) {
    Shared(s') && Guarantee(s, s', a)
  }

  ghost predicate Good(s: State, s': State, a: Actor) {
    Core(s, s', a) && Moves(s, s', a)
  }

  // ---- stability --------------------------------------------------------

  lemma StableDoomed(s: State, s': State, a: Actor, id: SessionId)
    requires Guarantee(s, s', a) && id in s.names && Doomed(s, id)
    ensures Doomed(s', id)
  {
    if id in s'.rows && id in s.rows {
      assert KeepsRow(s, s.rows[id], s'.rows[id], a, id);
    }
  }

  lemma StableAttachable(s: State, s': State, a: Actor, id: SessionId)
    requires Shared(s) && Guarantee(s, s', a) && id in s.names && Attachable(s, id)
    ensures Attachable(s', id)
  {
  }

  /** While `t` holds the alias lock, or the record waits in the backlog, nobody adds identity fields. */
  lemma StableCoherent(s: State, s': State, a: Actor, id: SessionId, row: Row)
    requires Shared(s) && Guarantee(s, s', a) && id in s.names && Coherent(s, id, row)
    requires Settled(s.opens, id) && (id in s.backlog || !Holds(s, a, s.names[id]))
    ensures Coherent(s', id, row)
  {
    if id in s'.rows && id in s.rows {
      assert KeepsRow(s, s.rows[id], s'.rows[id], a, id);
    }
  }

  lemma StableTodo(s: State, s': State, a: Actor, t: TaskId, todo: seq<Found>)
    requires Shared(s) && Guarantee(s, s', a) && a != ByTask(t) && TodoOk(s, t, todo)
    ensures TodoOk(s', t, todo)
  {
    forall i | 0 <= i < |todo| ensures Coherent(s', todo[i].id, todo[i].row) {
      StableCoherent(s, s', a, todo[i].id, todo[i].row);
    }
  }

  lemma StableShut(
    s: State, s': State, a: Actor, t: TaskId, alias: Alias, caller: ShutFor, id: SessionId, op: nat, at: ShutStep)
    requires Shared(s) && Guarantee(s, s', a) && a != ByTask(t) && ShutOk(s, t, alias, caller, id, op, at)
    ensures ShutOk(s', t, alias, caller, id, op, at)
  {
    if caller.Spawned? || id in s.unacquired { StableDoomed(s, s', a, id); }
    if caller.Recovering? { StableTodo(s, s', a, t, caller.todo); }
  }

  lemma StableRetry(s: State, s': State, a: Actor, t: TaskId, alias: Alias, id: SessionId, row: Row)
    requires Shared(s) && Guarantee(s, s', a) && a != ByTask(t) && RetryOk(s, t, alias, id, row)
    ensures RetryOk(s', t, alias, id, row)
  {
    if row.closeReason != None { StableDoomed(s, s', a, id); }
    StableCoherent(s, s', a, id, row);
  }

  /** While its alias lock is held by another task, a row keeps its place and its missing close reason. */
  lemma StableUnclosed(s: State, s': State, a: Actor, t: TaskId, alias: Alias, id: SessionId)
    requires Shared(s) && Guarantee(s, s', a) && a != ByTask(t) && Mine(s, t, alias) && Known(s, id, alias)
    requires id in s.rows && s.rows[id].closeReason == None
    ensures id in s'.rows && s'.rows[id].closeReason == None
  {
    assert id in s'.rows ==> KeepsRow(s, s.rows[id], s'.rows[id], a, id);
  }

  lemma StableAttach(
    s: State, s': State, a: Actor, t: TaskId, alias: Alias, on: AttachFor, id: SessionId, row: Row, step: AttachStep)
    requires Shared(s) && Guarantee(s, s', a) && a != ByTask(t) && AttachOk(s, t, alias, on, id, row, step)
    ensures AttachOk(s', t, alias, on, id, row, step)
  {
    hide RowsOk, KeepsRows, KeepsRow, LogJustified, StartsAwaited, RowsRecorded, KeepsLog, TodoOk, Coherent;
    StableAttachable(s, s', a, id);
    if Coherent(s, id, row) { StableCoherent(s, s', a, id, row); }
    if on.ByRecovery? { StableTodo(s, s', a, t, on.todo); }
    if step != AttachBegin(false) { StableUnclosed(s, s', a, t, alias, id); }
  }

  lemma LocksAndNames(s: State, s': State, a: Actor)
    requires Guarantee(s, s', a)
    ensures KeepsLocks(s, s'.locks, a) && KeepsNames(s, s'.names)
  {
    hide KeepsLocks, KeepsNames, KeepsTasks, KeepsRows, RowsRecorded, KeepsOpens, KeepsOwned, KeepsQuiet;
    hide KeepsRecovery, KeepsUnacquired, KeepsLog;
  }

  lemma StableExit(s: State, s': State, a: Actor, t: TaskId, task: Task)
    requires Shared(s) && Guarantee(s, s', a) && a != ByTask(t) && IsExit(task) && ExitTaskOk(s, t, task)
    ensures ExitTaskOk(s', t, task)
  {
    hide Shared, Guarantee, ExitOk, Mine, Coherent;
    var reread := task.ExitFresh? && task.latest.Some?;
    StableExitParts(s, s', a, t, task.alias, task.id, if reread then task.latest else None);
  }

  lemma StableExitParts(
    s: State, s': State, a: Actor, t: TaskId, alias: Alias, id: SessionId, latest: Option<Row>)
    requires Shared(s) && Guarantee(s, s', a) && a != ByTask(t) && ExitOk(s, alias, id)
    requires latest.Some? ==> Mine(s, t, alias) && Coherent(s, id, latest.value)
    ensures ExitOk(s', alias, id) && (Mine(s, t, alias) ==> Mine(s', t, alias))
    ensures latest.Some? ==> Coherent(s', id, latest.value)
  {
    hide Shared, Guarantee, Coherent;
    LocksAndNames(s, s', a);
    StableAttachable(s, s', a, id);
    if latest.Some? { StableCoherent(s, s', a, id, latest.value); }
  }

  lemma StableRecover(s: State, s': State, a: Actor, t: TaskId, task: Task)
    requires Shared(s) && Guarantee(s, s', a) && a != ByTask(t) && IsRecover(task) && RecoverTaskOk(s, t, task)
    ensures RecoverTaskOk(s', t, task)
  {
    StableTodo(s, s', a, t, task.todo);
    if !task.RecoverNext? { StableAttachable(s, s', a, task.id); }
  }

  lemma StableClose(s: State, s': State, a: Actor, t: TaskId, task: Task)
    requires Shared(s) && Guarantee(s, s', a) && a != ByTask(t) && IsClose(task) && CloseTaskOk(s, t, task)
    ensures CloseTaskOk(s', t, task)
  {
    if task.CloseMark? || task.CloseSettle? { StableDoomed(s, s', a, task.id); }
  }

  lemma StableOpening(s: State, s': State, a: Actor, t: TaskId, task: Task)
    requires Shared(s) && Guarantee(s, s', a) && a != ByTask(t) && IsOpen(task) && OpenTaskOk(s, t, task)
    ensures OpenTaskOk(s', t, task)
  {
    if task.OpenInsert? {
      assert KeepsRow(s, s.rows[task.id], s'.rows[task.id], a, task.id);
    }
    if task.OpenRead? && !task.found {
      forall id | id in s'.rows ensures s'.rows[id].alias != task.alias {
        if id in s.rows { assert KeepsRow(s, s.rows[id], s'.rows[id], a, id); }
      }
    }
  }

  lemma StableRetrying(s: State, s': State, a: Actor, t: TaskId, task: Task)
    requires Shared(s) && Guarantee(s, s', a) && a != ByTask(t) && IsRetry(task) && RetryTaskOk(s, t, task)
    ensures RetryTaskOk(s', t, task)
  {
    match task
    case RetryRead(alias, seen) =>
      if seen.Some? && seen.value.row.state == Error {
        StableRetry(s, s', a, t, alias, seen.value.id, seen.value.row);
      }
    case RetrySettle(alias, id, row) => StableRetry(s, s', a, t, alias, id, row);
    case RetrySleep(alias, id, row) => StableRetry(s, s', a, t, alias, id, row);
    case _ =>
  }

  lemma StableTask(s: State, s': State, a: Actor, t: TaskId, task: Task)
    requires Shared(s) && Guarantee(s, s', a) && a != ByTask(t) && TaskOk(s, t, task)
    ensures TaskOk(s', t, task)
  {
    hide Shared, Guarantee, OpenTaskOk, CloseTaskOk, RetryTaskOk, ExitTaskOk, RecoverTaskOk, ShutOk, AttachOk;
    if IsOpen(task) { StableOpening(s, s', a, t, task); }
    else if IsClose(task) { StableClose(s, s', a, t, task); }
    else if IsRetry(task) { StableRetrying(s, s', a, t, task); }
    else if IsExit(task) { StableExit(s, s', a, t, task); }
    else if IsRecover(task) { StableRecover(s, s', a, t, task); }
    else if task.Shut? { StableShut(s, s', a, t, task.alias, task.caller, task.id, task.op, task.at); }
    else { StableAttach(s, s', a, t, task.alias, task.on, task.id, task.row, task.step); }
  }

  lemma StableOpen(s: State, s': State, a: Actor, id: SessionId)
    requires Shared(s) && Guarantee(s, s', a) && a != ByOpen(id)
    requires id in s.opens && OpenOk(s, id, s.opens[id])
    requires id in s'.opens && s'.opens[id] == s.opens[id]
    ensures OpenOk(s', id, s.opens[id])
  {
    if id in s'.rows && id in s.rows {
      assert KeepsRow(s, s.rows[id], s'.rows[id], a, id);
    }
  }

  /** One task's good step keeps the invariant of all of them. */
  lemma GoodStepKeepsInv(s: State, s': State, a: Actor)
    requires Inv(s) && Good(s, s', a)
    ensures Inv(s')
  {
    forall t | t in s'.tasks ensures TaskOk(s', t, s'.tasks[t]) {
      if t in s.tasks && a != ByTask(t) && s'.tasks[t] == s.tasks[t] {
        StableTask(s, s', a, t, s.tasks[t]);
      }
    }
    forall id | id in s'.opens ensures OpenOk(s', id, s'.opens[id]) {
      if id in s.opens && a != ByOpen(id) && s'.opens[id] == s.opens[id] {
        StableOpen(s, s', a, id);
      }
    }
  }
}
