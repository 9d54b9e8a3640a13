/** Every step of every task is good: it keeps the shared invariant, re-establishes what it owes
    itself and spares what other tasks rely on. */
module LifecycleSteps {
  import opened Wrappers
  import opened Records
  import opened Database
  import opened Lifecycle
  import opened LifecycleInvariant
  import opened Sets

  ghost predicate Due(s: State, t: TaskId, task: Task) {
    Shared(s) && t in s.tasks && s.tasks[t] == task && TaskOk(s, t, task)
  }

  lemma DueIsIdle(s: State, t: TaskId, task: Task)
    requires Due(s, t, task) && !task.CloseSettle? && !task.RetrySettle?
    ensures Shared(s) && t in s.tasks && Idle(s, t)
  {
    hide Shared, TaskOk;
  }

  // ---- changes of the rows ----------------------------------------------

  ghost predicate PatchOk(s: State, r: Row, r': Row, a: Actor, id: SessionId) {
    && KeepsRow(s, r, r', a, id)
    && (r'.closeReason.Some? ==> r'.state == Stopping || r'.state == Error)
    && (r'.state == Stopping ==> r'.closeReason.Some?)
    && (id in s.unacquired && r'.closeReason.None? ==> r'.state == Starting)
  }

  /** At most one update of one existing row. */
  ghost predicate RowsChange(s: State, rows: Table, a: Actor, id: SessionId) {
    || rows == s.rows
    || (id in s.rows && id in rows && rows == s.rows[id := rows[id]] && PatchOk(s, s.rows[id], rows[id], a, id))
  }

  /** The deletion of one row, recorded in the log. */
  ghost predicate RowGoes(s: State, rows: Table, log: seq<Act>, a: Actor, id: SessionId) {
    && rows == s.rows - {id} && DeletionLogged(s.log, log, id)
    && (id in s.rows ==> s.rows[id].closeReason.Some? || Holds(s, a, s.rows[id].alias))
  }

  lemma NoRowsChange(s: State, a: Actor, id: SessionId)
    ensures RowsChange(s, s.rows, a, id)
  {
  }

  lemma RowsChangeKeeps(s: State, rows: Table, a: Actor, id: SessionId)
    requires RowsChange(s, rows, a, id)
    ensures KeepsRows(s, rows, a) && rows.Keys == s.rows.Keys
  {
  }

  lemma RowsChangeStates(s: State, rows: Table, a: Actor, id: SessionId)
    requires CloseIntent(s.rows) && UnacquiredUntouched(s.rows, s.unacquired) && RowsChange(s, rows, a, id)
    ensures CloseIntent(rows) && UnacquiredUntouched(rows, s.unacquired)
  {
    hide KeepsRow;
  }

  lemma RowsChangeNames(s: State, rows: Table, owned: set<SessionId>, a: Actor, id: SessionId)
    requires RowsNamed(s.rows, s.names) && RowsReserved(s.rows, s.owned, s.unacquired) && OneRowPerAlias(s.rows)
    requires RowsChange(s, rows, a, id) && s.owned * s.rows.Keys <= owned
    ensures RowsNamed(rows, s.names) && RowsReserved(rows, owned, s.unacquired) && OneRowPerAlias(rows)
  {
    hide WriteOnce, Holds, Settled, Attachable;
  }

  lemma RowsChangeOk(s: State, rows: Table, owned: set<SessionId>, a: Actor, id: SessionId)
    requires RowsOk(s) && RowsChange(s, rows, a, id) && s.owned * s.rows.Keys <= owned
    ensures RowsNamed(rows, s.names) && RowsReserved(rows, owned, s.unacquired) && OneRowPerAlias(rows)
    ensures CloseIntent(rows) && UnacquiredUntouched(rows, s.unacquired)
    ensures KeepsRows(s, rows, a) && rows.Keys == s.rows.Keys
  {
    hide RowsNamed, RowsReserved, OneRowPerAlias, CloseIntent, UnacquiredUntouched, RowsChange, KeepsRows;
    RowsChangeKeeps(s, rows, a, id);
    RowsChangeStates(s, rows, a, id);
    RowsChangeNames(s, rows, owned, a, id);
  }

  lemma RowGoesOk(s: State, rows: Table, log: seq<Act>, owned: set<SessionId>, a: Actor, id: SessionId)
    requires RowsOk(s) && RowGoes(s, rows, log, a, id) && s.owned * s.rows.Keys <= owned
    ensures RowsNamed(rows, s.names) && RowsReserved(rows, owned, s.unacquired) && OneRowPerAlias(rows)
    ensures CloseIntent(rows) && UnacquiredUntouched(rows, s.unacquired)
    ensures KeepsRows(s, rows, a) && RowsRecorded(s.rows, rows, s.log, log)
  {
    hide DeletionLogged;
  }

  lemma SameKeysRecorded(before: Table, rows: Table, earlier: seq<Act>, log: seq<Act>)
    requires rows.Keys == before.Keys
    ensures RowsRecorded(before, rows, earlier, log)
  {
  }

  /** The log grows by acts that are justified where they stand. */
  ghost predicate ActsJustified(log: seq<Act>, acts: seq<Act>) {
    forall i :: 0 <= i < |acts| ==>
      && (acts[i].Deleted? && !acts[i].forced ==> Justified(log + acts[..i], acts[i].op, acts[i].id))
      && (acts[i].Removing? ==> Confirmed(acts[i].op, acts[i].id) in log + acts[..i])
  }

  lemma LogGrows(log: seq<Act>, acts: seq<Act>)
    requires LogJustified(log) && ActsJustified(log, acts)
    ensures LogJustified(log + acts) && KeepsLog(log, log + acts)
  {
    var all := log + acts;
    forall i | 0 <= i < |all|
      ensures all[i].Deleted? && !all[i].forced ==> Justified(all[..i], all[i].op, all[i].id)
      ensures all[i].Removing? ==> Confirmed(all[i].op, all[i].id) in all[..i]
    {
      if i < |log| {
        assert all[..i] == log[..i];
      } else {
        assert all[..i] == log + acts[..i - |log|];
        assert all[i] == acts[i - |log|];
      }
    }
  }

  // ---- changes of the core ----------------------------------------------

  /** Slots go only with no row, no start task and no table entry left. */
  ghost predicate Releases(
    s: State, owned: set<SessionId>, registry: map<SessionId, int>, counts: map<SessionId, nat>, timers: set<SessionId>)
  {
    && owned <= s.owned && registry.Keys <= s.registry.Keys && counts.Keys <= s.counts.Keys && timers <= s.timers
    && (forall x :: x in s.owned && x !in owned ==>
          x !in s.rows && x !in s.opens && x !in registry && x !in counts && x !in timers)
  }

  /** A statement, entries leaving the tables, log entries; start tasks move on or end. */
  ghost predicate Shrinks(s: State, s': State, a: Actor, id: SessionId) {
    && (RowsChange(s, s'.rows, a, id) || RowGoes(s, s'.rows, s'.log, a, id))
    && Releases(s, s'.owned, s'.registry, s'.counts, s'.timers)
    && s'.names == s.names && s'.unacquired == s.unacquired
    && s'.recoverer == s.recoverer && s'.backlog <= s.backlog
    && (s'.backlog == s.backlog || (s.recoverer.Some? && a == ByTask(s.recoverer.value)))
    && s'.opens.Keys <= s.opens.Keys
    && (forall x :: x in s'.opens && s'.opens[x].phase == Preparing ==> s.opens[x].phase == Preparing)
    && s'.watched == s.watched && s'.capacity == s.capacity && s'.startRows == s.startRows && s'.next >= s.next
    && LogJustified(s'.log) && KeepsLog(s.log, s'.log)
  }

  /** Of the core, `s'` changes at most the rows, the log and entries of `id` that go. */
  ghost predicate Trims(s: State, s': State, id: SessionId) {
    && s'.owned == s.owned && s'.names == s.names && s'.unacquired == s.unacquired
    && (s'.registry == s.registry || s'.registry == s.registry - {id})
    && (s'.timers == s.timers || s'.timers == s.timers - {id})
    && s'.counts == s.counts && s'.recoverer == s.recoverer && s'.backlog == s.backlog && s'.opens == s.opens
    && s'.watched == s.watched && s'.capacity == s.capacity && s'.startRows == s.startRows && s'.next >= s.next
  }

  ghost predicate LogOk(log: seq<Act>, log': seq<Act>) {
    log' == log || (LogJustified(log') && KeepsLog(log, log'))
  }

  lemma TrimsShrinks(s: State, s': State, a: Actor, id: SessionId)
    requires LogJustified(s.log) && Trims(s, s', id) && LogOk(s.log, s'.log)
    requires RowsChange(s, s'.rows, a, id) || RowGoes(s, s'.rows, s'.log, a, id)
    ensures Shrinks(s, s', a, id)
  {
    hide LogJustified, RowsChange, RowGoes;
  }

  ghost predicate SameTables(q: State, s': State) {
    && s'.owned == q.owned && s'.names == q.names && s'.unacquired == q.unacquired
    && s'.registry == q.registry && s'.counts == q.counts && s'.timers == q.timers
    && s'.recoverer == q.recoverer && s'.backlog == q.backlog && s'.opens == q.opens
    && s'.watched == q.watched && s'.capacity == q.capacity && s'.startRows == q.startRows && s'.next >= q.next
  }

  lemma ShrinksFurther(s: State, q: State, s': State, a: Actor, id: SessionId)
    requires Shrinks(s, q, a, id) && SameTables(q, s') && LogOk(q.log, s'.log)
    requires s'.rows == q.rows || RowsChange(s, s'.rows, a, id) || (RowGoes(s, s'.rows, s'.log, a, id))
    requires q.rows == s.rows
    ensures Shrinks(s, s', a, id)
    ensures s.next <= q.next <= s'.next && q.names == s.names && q.unacquired == s.unacquired
    ensures q.recoverer == s.recoverer && q.backlog <= s.backlog
  {
    hide LogJustified, RowsChange, RowGoes, Releases;
    NoRowsChange(s, a, id);
  }

  /** What a step must still show about tasks, locks and start tasks. */
  ghost predicate TasksOk(s: State, s': State, a: Actor) {
    && KeepsLocks(s, s'.locks, a)
    && KeepsTasks(s, s'.tasks, a)
    && TasksFresh(s'.tasks, s'.next)
    && StartsAwaited(s'.opens, s'.starts, s'.settling, s'.tasks)
  }

  lemma ShrinksTablesOk(s: State, s': State, a: Actor, id: SessionId)
    requires TablesOk(s) && Shrinks(s, s', a, id)
    ensures TablesOk(s')
  {
    hide RowsChange, RowGoes, LogJustified, KeepsLog;
    SmallerSet(s'.owned, s.owned);
  }

  lemma ShrinksKeepsTables(s: State, s': State, a: Actor, id: SessionId)
    requires TablesOk(s) && Shrinks(s, s', a, id)
    ensures TablesOk(s')
    ensures KeepsOpens(s, s'.opens, a) && KeepsOwned(s, s'.owned)
    ensures KeepsQuiet(s, s'.registry, s'.counts, s'.timers, a)
    ensures KeepsRecovery(s, s'.recoverer, s'.backlog, a) && KeepsUnacquired(s, s'.unacquired, a)
  {
    hide RowsChange, RowGoes, LogJustified, KeepsLog, TablesOk;
    ShrinksTablesOk(s, s', a, id);
  }

  lemma ShrinksIsCore(s: State, s': State, a: Actor, id: SessionId)
    requires Shared(s) && Shrinks(s, s', a, id) && TasksOk(s, s', a)
    ensures Core(s, s', a)
  {
    hide RowsChange, RowGoes, RowsRecorded, KeepsRows, KeepsOpens, KeepsOwned, KeepsQuiet, KeepsRecovery;
    hide KeepsUnacquired;
    hide LogJustified, KeepsLog, KeepsLocks, KeepsTasks, StartsAwaited, TasksFresh;
    hide RowsNamed, RowsReserved, OneRowPerAlias, CloseIntent, UnacquiredUntouched, TablesOk;
    if RowsChange(s, s'.rows, a, id) {
      RowsChangeOk(s, s'.rows, s'.owned, a, id);
      SameKeysRecorded(s.rows, s'.rows, s.log, s'.log);
    } else {
      RowGoesOk(s, s'.rows, s'.log, s'.owned, a, id);
    }
    ShrinksKeepsTables(s, s', a, id);
  }

  /** A reserved id enters the tables. */
  ghost predicate Grows(s: State, s': State, a: Actor, id: SessionId) {
    && s'.rows == s.rows && s'.owned == s.owned && s'.names == s.names && s'.unacquired == s.unacquired
    && s'.recoverer == s.recoverer && s'.backlog == s.backlog && s'.log == s.log
    && s'.capacity == s.capacity && s'.startRows == s.startRows && s'.next >= s.next
    && s'.opens.Keys == s.opens.Keys
    && (forall x :: x in s'.opens && s'.opens[x].phase == Preparing ==> s.opens[x].phase == Preparing)
    && id in s.owned && id in s.names && id !in s.backlog
    && s'.registry.Keys <= s.registry.Keys + {id}
    && s'.counts.Keys <= s.counts.Keys + {id}
    && s'.timers <= s.timers + {id}
    && (id in s'.registry ==> id in s.registry || id in s.opens || Holds(s, a, s.names[id]))
    && (id in s'.counts ==> id in s.counts || s.recoverer.None?)
    && (id in s'.timers ==> id in s.timers || s.recoverer.None? || Holds(s, a, s.names[id]))
    && (s'.watched == s.watched || (s'.watched == s.watched[s.next := id] && Attachable(s, id)))
  }

  lemma GrowsKeepsTables(s: State, s': State, a: Actor, id: SessionId)
    requires TablesOk(s) && Grows(s, s', a, id)
    ensures TablesOk(s')
    ensures KeepsOpens(s, s'.opens, a) && KeepsOwned(s, s'.owned)
    ensures KeepsQuiet(s, s'.registry, s'.counts, s'.timers, a)
    ensures KeepsRecovery(s, s'.recoverer, s'.backlog, a) && KeepsUnacquired(s, s'.unacquired, a)
  {
  }

  lemma GrowsIsCore(s: State, s': State, a: Actor, id: SessionId)
    requires Shared(s) && Grows(s, s', a, id) && TasksOk(s, s', a)
    ensures Core(s, s', a)
  {
    hide KeepsRows, RowsRecorded, KeepsOpens, KeepsOwned, KeepsQuiet, KeepsRecovery, KeepsUnacquired;
    hide LogJustified, KeepsLocks, KeepsTasks, StartsAwaited, TasksFresh;
    hide RowsNamed, RowsReserved, OneRowPerAlias, CloseIntent, UnacquiredUntouched, TablesOk;
    NoRowsChange(s, a, id);
    RowsChangeOk(s, s.rows, s.owned, a, id);
    SameKeysRecorded(s.rows, s'.rows, s.log, s'.log);
    GrowsKeepsTables(s, s', a, id);
  }

  // ---- moves of one task ------------------------------------------------

  ghost predicate LockMoves(s: State, locks: map<Alias, TaskId>, t: TaskId) {
    || locks == s.locks
    || (exists alias :: Mine(s, t, alias) && locks == s.locks - {alias})
    || (exists alias :: alias !in s.locks && locks == s.locks[alias := t])
  }

  /** No running start task is awaited by `t`. */
  ghost predicate Idle(s: State, t: TaskId)
    requires t in s.tasks
  {
    forall x :: x in s.opens ==> !Awaits(s.tasks[t], x)
  }

  lemma TurnTasksOk(s: State, s': State, t: TaskId, task: Task)
    requires Shared(s) && t in s.tasks && Idle(s, t)
    requires s'.opens == s.opens && s'.starts == s.starts && s'.settling == s.settling && s'.next >= s.next
    requires s'.tasks == s.tasks[t := task] || s'.tasks == s.tasks - {t}
    requires LockMoves(s, s'.locks, t)
    ensures TasksOk(s, s', ByTask(t))
  {
    hide RowsOk, TablesOk, LogJustified;
  }

  lemma OneMoves(s: State, s': State, t: TaskId, task: Task)
    requires s'.tasks == s.tasks[t := task] && s'.opens == s.opens && TaskOk(s', t, task)
    ensures Moves(s, s', ByTask(t))
  {
    hide TaskOk, OpenOk;
  }

  lemma OneLeaves(s: State, s': State, t: TaskId)
    requires s'.tasks == s.tasks - {t} && s'.opens == s.opens
    ensures Moves(s, s', ByTask(t))
  {
    hide TaskOk, OpenOk;
  }

  /** A task that is not awaiting a start task goes on to `task`. */
  lemma Turns(s: State, s': State, t: TaskId, task: Task, id: SessionId)
    requires Shared(s) && t in s.tasks && Idle(s, t)
    requires Shrinks(s, s', ByTask(t), id) && s'.next >= s.next
    requires s'.opens == s.opens && s'.starts == s.starts && s'.settling == s.settling
    requires s'.tasks == s.tasks[t := task] && LockMoves(s, s'.locks, t) && TaskOk(s', t, task)
    ensures Good(s, s', ByTask(t))
  {
    hide TaskOk, Shrinks, LockMoves, Core, Moves, TasksOk;
    TurnTasksOk(s, s', t, task);
    ShrinksIsCore(s, s', ByTask(t), id);
    OneMoves(s, s', t, task);
  }

  /** A task that is not awaiting a start task ends. */
  lemma Leaves(s: State, s': State, t: TaskId, id: SessionId)
    requires Shared(s) && t in s.tasks && Idle(s, t)
    requires Shrinks(s, s', ByTask(t), id) && s'.next >= s.next
    requires s'.opens == s.opens && s'.starts == s.starts && s'.settling == s.settling
    requires s'.tasks == s.tasks - {t} && LockMoves(s, s'.locks, t)
    ensures Good(s, s', ByTask(t))
  {
    hide Shrinks, LockMoves, Core, Moves, TasksOk;
    TurnTasksOk(s, s', t, s.tasks[t]);
    ShrinksIsCore(s, s', ByTask(t), id);
    OneLeaves(s, s', t);
  }

  lemma Waits(s: State, t: TaskId, task: Task)
    requires Due(s, t, task)
    ensures Good(s, s, ByTask(t))
  {
    hide TaskOk;
  }

  /** Taking a free alias lock. */
  lemma TakeGood(s: State, t: TaskId, alias: Alias, task: Task)
    requires Shared(s) && t in s.tasks && Idle(s, t) && alias !in s.locks && TaskOk(Take(s, t, alias, task), t, task)
    ensures Good(s, Take(s, t, alias, task), ByTask(t))
  {
    hide Good, TaskOk, RowsOk, TablesOk, LogJustified, RowsChange, RowGoes, Shrinks, KeepsLog;
    NoRowsChange(s, ByTask(t), 0);
    TrimsShrinks(s, Take(s, t, alias, task), ByTask(t), 0);
    Turns(s, Take(s, t, alias, task), t, task, 0);
  }

  /** Ending without holding a lock. */
  lemma DoneGood(s: State, t: TaskId)
    requires Shared(s) && t in s.tasks && Idle(s, t)
    ensures Good(s, Done(s, t), ByTask(t))
  {
    hide Good, TaskOk, RowsOk, TablesOk, LogJustified, RowsChange, RowGoes, Shrinks, KeepsLog;
    NoRowsChange(s, ByTask(t), 0);
    TrimsShrinks(s, Done(s, t), ByTask(t), 0);
    Leaves(s, Done(s, t), t, 0);
  }

  // ---- open -------------------------------------------------------------

  lemma OpenLockGood(s: State, t: TaskId, alias: Alias, c: Choice)
    requires Due(s, t, OpenLock(alias))
    ensures Good(s, StepOpenLock(s, t, alias, c), ByTask(t))
  {
    hide CloseTaskOk, RetryTaskOk, ExitTaskOk, RecoverTaskOk, ShutOk, AttachOk;
    hide Good, Done, Shared, AliasTaken;
    if c.cancelled || (alias !in s.locks && !c.listed) {
      DoneGood(s, t);
    } else if alias in s.locks {
      Waits(s, t, OpenLock(alias));
    } else {
      TakeGood(s, t, alias, OpenRead(alias, AliasTaken(s.rows, alias)));
    }
  }

  lemma LeaveGood(s: State, t: TaskId, alias: Alias)
    requires Shared(s) && t in s.tasks && Idle(s, t) && Mine(s, t, alias)
    ensures Good(s, Leave(s, t, alias), ByTask(t))
  {
    hide OpenTaskOk, CloseTaskOk, RetryTaskOk, ExitTaskOk, RecoverTaskOk, ShutOk, AttachOk;
    hide Good, RowsOk, TablesOk, LogJustified, RowsChange, RowGoes, Shrinks, KeepsLog;
    NoRowsChange(s, ByTask(t), 0);
    TrimsShrinks(s, Leave(s, t, alias), ByTask(t), 0);
    Leaves(s, Leave(s, t, alias), t, 0);
  }

  /** Inserting under the alias lock, when no row has the alias. */
  ghost predicate Inserts(s: State, s': State, alias: Alias) {
    && s'.rows == Insert(s.rows, s.next, alias) && s'.names == s.names[s.next := alias]
    && s'.unacquired == s.unacquired + {s.next} && s'.next == s.next + 1
    && s'.owned == s.owned && s'.registry == s.registry && s'.counts == s.counts && s'.timers == s.timers
    && s'.recoverer == s.recoverer && s'.backlog == s.backlog && s'.opens == s.opens
    && s'.watched == s.watched && s'.log == s.log && s'.capacity == s.capacity && s'.startRows == s.startRows
  }

  lemma InsertedRowsOk(s: State, s': State, alias: Alias)
    requires RowsOk(s) && NamesFresh(s.names, s.next) && Inserts(s, s', alias) && !AliasTaken(s.rows, alias)
    ensures RowsOk(s')
  {
  }

  lemma InsertKeepsRows(s: State, s': State, t: TaskId, alias: Alias)
    requires RowsOk(s) && NamesFresh(s.names, s.next) && Inserts(s, s', alias)
    requires Mine(s, t, alias) && !AliasTaken(s.rows, alias)
    ensures RowsOk(s') && KeepsRows(s, s'.rows, ByTask(t)) && RowsRecorded(s.rows, s'.rows, s.log, s'.log)
  {
    InsertedRowsOk(s, s', alias);
    hide OneRowPerAlias, CloseIntent, UnacquiredUntouched, RowsReserved;
  }

  lemma InsertKeepsTables(s: State, s': State, t: TaskId, alias: Alias)
    requires TablesOk(s) && Inserts(s, s', alias) && t in s.tasks && s.tasks[t].OpenRead?
    ensures TablesOk(s') && KeepsNames(s, s'.names) && KeepsUnacquired(s, s'.unacquired, ByTask(t))
    ensures KeepsOpens(s, s'.opens, ByTask(t)) && KeepsOwned(s, s'.owned)
    ensures KeepsQuiet(s, s'.registry, s'.counts, s'.timers, ByTask(t))
    ensures KeepsRecovery(s, s'.recoverer, s'.backlog, ByTask(t))
  {
  }

  lemma InsertIsCore(s: State, s': State, t: TaskId, alias: Alias)
    requires Shared(s) && Mine(s, t, alias) && !AliasTaken(s.rows, alias) && t in s.tasks && s.tasks[t].OpenRead?
    requires Inserts(s, s', alias) && TasksOk(s, s', ByTask(t))
    ensures Core(s, s', ByTask(t))
  {
    hide KeepsLocks, KeepsTasks, StartsAwaited, TasksFresh, KeepsRows, RowsRecorded, KeepsNames, KeepsUnacquired;
    hide KeepsOpens, KeepsOwned;
    hide KeepsQuiet, KeepsRecovery, LogJustified;
    InsertKeepsRows(s, s', t, alias);
    InsertKeepsTables(s, s', t, alias);
  }

  lemma Combine(s: State, s': State, a: Actor)
    requires Core(s, s', a) && Moves(s, s', a)
    ensures Good(s, s', a)
  {
  }

  lemma OpenReadGood(s: State, t: TaskId, alias: Alias, found: bool, c: Choice)
    requires Due(s, t, OpenRead(alias, found))
    ensures Good(s, StepOpenRead(s, t, alias, found, c), ByTask(t))
  {
    hide CloseTaskOk, RetryTaskOk, ExitTaskOk, RecoverTaskOk, ShutOk, AttachOk;
    hide Good, Core, Moves, RowsOk;
    var s' := StepOpenRead(s, t, alias, found, c);
    if c.cancelled || found || Full(s) {
      LeaveGood(s, t, alias);
    } else {
      hide Shared, Due;
      InsertInserts(s, t, alias, c);
      InsertGood(s, s', t, alias);
    }
  }

  lemma InsertInserts(s: State, t: TaskId, alias: Alias, c: Choice)
    requires Due(s, t, OpenRead(alias, false)) && !c.cancelled && !Full(s)
    ensures var s' := StepOpenRead(s, t, alias, false, c);
      && Mine(s, t, alias) && !AliasTaken(s.rows, alias)
      && Inserts(s, s', alias) && s'.tasks == s.tasks[t := OpenInsert(alias, s.next)] && s'.locks == s.locks
      && s'.starts == s.starts && s'.settling == s.settling
  {
    hide Shared;
  }

  lemma InsertGood(s: State, s': State, t: TaskId, alias: Alias)
    requires Due(s, t, OpenRead(alias, false)) && Mine(s, t, alias) && !AliasTaken(s.rows, alias)
    requires Inserts(s, s', alias) && s'.tasks == s.tasks[t := OpenInsert(alias, s.next)] && s'.locks == s.locks
    requires s'.starts == s.starts && s'.settling == s.settling
    ensures Good(s, s', ByTask(t))
  {
    hide CloseTaskOk, RetryTaskOk, ExitTaskOk, RecoverTaskOk, ShutOk, AttachOk;
    hide Good, Core, Moves, RowsOk;
    TurnTasksOk(s, s', t, OpenInsert(alias, s.next));
    InsertIsCore(s, s', t, alias);
    OneMoves(s, s', t, OpenInsert(alias, s.next));
    Combine(s, s', ByTask(t));
  }

  /** Acquiring the slot and spawning the start task. */
  ghost predicate Acquires(s: State, s': State, alias: Alias, id: SessionId) {
    && s'.owned == s.owned + {id} && s'.unacquired == s.unacquired - {id}
    && s'.starts == s.starts + {id} && s'.settling == s.settling
    && s'.opens == s.opens[id := OpenTask(alias, Preparing, false, false, false, false, InternalError)]
    && s'.rows == s.rows && s'.names == s.names && s'.next == s.next
    && s'.registry == s.registry && s'.counts == s.counts && s'.timers == s.timers
    && s'.recoverer == s.recoverer && s'.backlog == s.backlog
    && s'.watched == s.watched && s'.log == s.log && s'.capacity == s.capacity && s'.startRows == s.startRows
  }

  lemma AcquireKeepsTables(s: State, s': State, t: TaskId, alias: Alias, id: SessionId)
    requires TablesOk(s) && Acquires(s, s', alias, id) && OpenTaskOk(s, t, OpenInsert(alias, id)) && !Full(s)
    requires t in s.tasks && s.tasks[t].OpenInsert?
    ensures TablesOk(s') && KeepsNames(s, s'.names) && KeepsUnacquired(s, s'.unacquired, ByTask(t))
    ensures KeepsOpens(s, s'.opens, ByTask(t)) && KeepsOwned(s, s'.owned)
    ensures KeepsQuiet(s, s'.registry, s'.counts, s'.timers, ByTask(t))
    ensures KeepsRecovery(s, s'.recoverer, s'.backlog, ByTask(t)) && id !in s.backlog
  {
    assert id !in s.owned;
  }

  lemma AcquireKeepsRows(s: State, s': State, t: TaskId, alias: Alias, id: SessionId)
    requires RowsOk(s) && Acquires(s, s', alias, id)
    ensures RowsOk(s') && KeepsRows(s, s'.rows, ByTask(t)) && RowsRecorded(s.rows, s'.rows, s.log, s'.log)
  {
  }

  lemma AcquireGood(s: State, s': State, t: TaskId, alias: Alias, id: SessionId)
    requires Due(s, t, OpenInsert(alias, id)) && Acquires(s, s', alias, id) && !Full(s)
    requires s'.tasks == s.tasks - {t} && s'.locks == s.locks - {alias}
    ensures Good(s, s', ByTask(t))
  {
    hide KeepsUnacquired, KeepsOpens, KeepsOwned, KeepsQuiet, KeepsRecovery, KeepsRows, RowsRecorded, LogJustified;
    hide RowsOk, TablesOk, Moves, OpenTaskOk, Acquires, KeepsLocks, KeepsTasks, TasksFresh, StartsAwaited;
    AcquireKeepsTables(s, s', t, alias, id);
    AcquireKeepsRows(s, s', t, alias, id);
    AcquireMoves(s, s', t, alias, id);
    AcquireTasks(s, s', t, alias, id);
  }

  lemma AcquireMoves(s: State, s': State, t: TaskId, alias: Alias, id: SessionId)
    requires Due(s, t, OpenInsert(alias, id)) && Acquires(s, s', alias, id) && s'.tasks == s.tasks - {t}
    ensures Moves(s, s', ByTask(t))
  {
    hide RowsOk, LogJustified;
    assert OpenOk(s', id, s'.opens[id]);
  }

  lemma AcquireTasks(s: State, s': State, t: TaskId, alias: Alias, id: SessionId)
    requires Due(s, t, OpenInsert(alias, id)) && Acquires(s, s', alias, id)
    requires s'.tasks == s.tasks - {t} && s'.locks == s.locks - {alias}
    ensures TasksOk(s, s', ByTask(t)) && LogJustified(s'.log) && KeepsLog(s.log, s'.log)
    ensures KeepsNames(s, s'.names)
  {
    hide RowsOk, TablesOk, LogJustified;
  }

  lemma RollbackGoes(s: State, t: TaskId, alias: Alias, id: SessionId)
    requires OpenTaskOk(s, t, OpenInsert(alias, id))
    ensures RowGoes(s, Delete(s.rows, id), s.log + [RolledBack(id)], ByTask(t), id)
  {
  }

  lemma RollsBackGood(s: State, t: TaskId, alias: Alias, id: SessionId)
    requires Due(s, t, OpenInsert(alias, id))
    ensures
      var s' := Put(s, t, OpenRollback(alias)).(rows := Delete(s.rows, id), log := s.log + [RolledBack(id)]);
      Good(s, s', ByTask(t))
  {
    hide CloseTaskOk, RetryTaskOk, ExitTaskOk, RecoverTaskOk, ShutOk, AttachOk;
    hide Good, LockMoves, RowsOk, TablesOk, LogJustified, RowsChange, RowGoes, Shrinks, KeepsLog;
    var s' := Put(s, t, OpenRollback(alias)).(rows := Delete(s.rows, id), log := s.log + [RolledBack(id)]);
    LogGrows(s.log, [RolledBack(id)]);
    RollbackGoes(s, t, alias, id);
    assert LockMoves(s, s.locks, t) by { SameLocks(s, t); }
    TrimsShrinks(s, s', ByTask(t), id);
    Turns(s, s', t, OpenRollback(alias), id);
  }

  lemma SameLocks(s: State, t: TaskId)
    ensures LockMoves(s, s.locks, t)
  {
  }

  lemma OpenInsertGood(s: State, t: TaskId, alias: Alias, id: SessionId, c: Choice)
    requires Due(s, t, OpenInsert(alias, id))
    ensures Good(s, StepOpenInsert(s, t, alias, id, c), ByTask(t))
  {
    hide CloseTaskOk, RetryTaskOk, ExitTaskOk, RecoverTaskOk, ShutOk, AttachOk;
    hide Good, Put, Delete, RowsOk, TablesOk, LogJustified;
    if c.cancelled {
      LeaveGood(s, t, alias);
    } else if Full(s) {
      RollsBackGood(s, t, alias, id);
    } else {
      AcquireGood(s, StepOpenInsert(s, t, alias, id, c), t, alias, id);
    }
  }

  // ---- close ------------------------------------------------------------

  lemma FoundIsKnown(s: State, alias: Alias)
    requires RowsOk(s)
    ensures FindByAlias(s.rows, alias).Some? ==> Known(s, FindByAlias(s.rows, alias).value, alias)
  {
  }

  lemma CloseLockGood(s: State, t: TaskId, alias: Alias, force: bool, c: Choice)
    requires Due(s, t, CloseLock(alias, force))
    ensures Good(s, StepCloseLock(s, t, alias, force, c), ByTask(t))
  {
    hide OpenTaskOk, RetryTaskOk, ExitTaskOk, RecoverTaskOk, ShutOk, AttachOk;
    hide Good, Done, RowsOk, TablesOk, LogJustified, FindByAlias;
    if c.cancelled {
      DoneGood(s, t);
    } else if alias in s.locks {
      Waits(s, t, CloseLock(alias, force));
    } else {
      FoundIsKnown(s, alias);
      TakeGood(s, t, alias, CloseRead(alias, force, FindByAlias(s.rows, alias)));
    }
  }

  lemma StoppingPatches(s: State, t: TaskId, alias: Alias, id: SessionId, reason: CloseReason)
    requires RowsOk(s) && Mine(s, t, alias) && Known(s, id, alias)
    ensures RowsChange(s, MarkStopping(s.rows, id, reason), ByTask(t), id)
  {
  }

  lemma CloseReadGood(s: State, t: TaskId, alias: Alias, force: bool, found: Option<SessionId>, c: Choice)
    requires Due(s, t, CloseRead(alias, force, found))
    ensures Good(s, StepCloseRead(s, t, alias, force, found, c), ByTask(t))
  {
    hide OpenTaskOk, RetryTaskOk, ExitTaskOk, RecoverTaskOk, ShutOk, AttachOk;
    hide Good, RowsOk, TablesOk, LogJustified, RowsChange, RowGoes, Shrinks, KeepsLog;
    var s' := StepCloseRead(s, t, alias, force, found, c);
    if c.cancelled || found.None? {
      LeaveGood(s, t, alias);
    } else {
      StoppingPatches(s, t, alias, found.value, c.reason);
      TrimsShrinks(s, s', ByTask(t), found.value);
      Turns(s, s', t, CloseMark(alias, force, found.value), found.value);
    }
  }

  lemma SettlerHolds(s: State, alias: Alias, id: SessionId)
    requires Inv(s) && Known(s, id, alias) && id in s.opens && id !in s.starts
    ensures id in s.settling && s.settling[id] in s.tasks
    ensures Awaits(s.tasks[s.settling[id]], id) && Mine(s, s.settling[id], alias)
  {
    hide OpenTaskOk, ExitTaskOk, RecoverTaskOk, ShutOk, AttachOk;
    hide RowsOk, TablesOk, LogJustified, OpenOk;
    var w := s.settling[id];
    assert TaskOk(s, w, s.tasks[w]);
  }

  /** Under the alias lock, a start task that left _start_tasks has ended, unless one awaits it. */
  lemma NotRunning(s: State, t: TaskId, alias: Alias, id: SessionId)
    requires Inv(s) && t in s.tasks && Mine(s, t, alias) && Known(s, id, alias) && Idle(s, t) && id !in s.starts
    ensures id !in s.opens
  {
    hide Inv;
    if id in s.opens { SettlerHolds(s, alias, id); }
  }

  /** Taking a start task out of _start_tasks to await it. */
  lemma Settles(s: State, s': State, t: TaskId, task: Task, id: SessionId)
    requires Shared(s) && t in s.tasks && Idle(s, t) && Awaits(task, id)
    requires Shrinks(s, s', ByTask(t), id) && s'.next >= s.next && s'.locks == s.locks
    requires s'.opens == s.opens && s'.starts == s.starts - {id} && s'.settling == s.settling[id := t]
    requires s'.tasks == s.tasks[t := task] && TaskOk(s', t, task)
    ensures Good(s, s', ByTask(t))
  {
    hide TaskOk, Shrinks, Core, Moves, RowsOk, TablesOk, LogJustified;
    assert TasksOk(s, s', ByTask(t));
    ShrinksIsCore(s, s', ByTask(t), id);
    OneMoves(s, s', t, task);
  }

  /** A task ends and leaves one behind to run what remains. */
  lemma HandsOver(s: State, s': State, t: TaskId, task: Task, id: SessionId)
    requires Shared(s) && t in s.tasks && Idle(s, t)
    requires Shrinks(s, s', ByTask(t), id) && s'.next == s.next + 1
    requires s'.opens == s.opens && s'.starts == s.starts && s'.settling == s.settling
    requires s'.tasks == (s.tasks - {t})[s.next := task] && LockMoves(s, s'.locks, t) && TaskOk(s', s.next, task)
    ensures Good(s, s', ByTask(t))
  {
    hide TaskOk, OpenOk, Shrinks, Core, RowsOk, TablesOk, LogJustified;
    assert TasksOk(s, s', ByTask(t));
    ShrinksIsCore(s, s', ByTask(t), id);
    assert Moves(s, s', ByTask(t));
  }

  lemma ForcedCloseGood(s: State, q: State, t: TaskId, alias: Alias, id: SessionId)
    requires Shared(s) && t in s.tasks && Idle(s, t) && Mine(s, t, alias) && Known(s, id, alias) && Doomed(s, id)
    requires q == s.(timers := s.timers - {id}, registry := s.registry - {id}) || q == s
    requires id !in s.opens
    ensures Good(s, StartShut(q, t, alias, Forced, id), ByTask(t))
  {
    hide OpenTaskOk, CloseTaskOk, RetryTaskOk, ExitTaskOk, RecoverTaskOk, AttachOk, LockMoves;
    hide Good, RowsOk, TablesOk, LogJustified, RowsChange, RowGoes, Shrinks, KeepsLog;
    var s' := StartShut(q, t, alias, Forced, id);
    NoRowsChange(s, ByTask(t), id);
    SameLocks(s, t);
    TrimsShrinks(s, s', ByTask(t), id);
    Turns(s, s', t, Shut(alias, Forced, id, s.next, ShutRead(Lookup(s.rows, id))), id);
  }

  lemma StartCloseGood(s: State, q: State, t: TaskId, alias: Alias, force: bool, id: SessionId)
    requires Shared(s) && t in s.tasks && Idle(s, t) && Mine(s, t, alias) && Known(s, id, alias) && Doomed(s, id)
    requires q == s.(timers := s.timers - {id}, registry := s.registry - {id}) || q == s
    requires id !in s.opens
    ensures Good(s, StartClose(q, t, alias, force, id), ByTask(t))
  {
    hide Good, StartShut, Leave, Spawn, Shared, Idle, Mine, Doomed;
    if force { ForcedCloseGood(s, q, t, alias, id); } else { SpawnedCloseGood(s, q, t, alias, id); }
  }

  lemma SpawnedOk(s: State, s': State, t: TaskId, alias: Alias, id: SessionId)
    requires Known(s, id, alias) && Doomed(s, id) && id !in s.opens
    requires s'.names == s.names && s'.rows == s.rows && s'.opens == s.opens
    ensures TaskOk(s', t, Shut(alias, Spawned, id, t, ShutStart))
  {
  }

  lemma SpawnedCloseGood(s: State, q: State, t: TaskId, alias: Alias, id: SessionId)
    requires Shared(s) && t in s.tasks && Idle(s, t) && Mine(s, t, alias) && Known(s, id, alias) && Doomed(s, id)
    requires q == s.(timers := s.timers - {id}, registry := s.registry - {id}) || q == s
    requires id !in s.opens
    ensures Good(s, Spawn(Leave(q, t, alias), Shut(alias, Spawned, id, q.next, ShutStart)), ByTask(t))
  {
    hide Good, TaskOk, RowsOk, TablesOk, LogJustified, RowsChange, RowGoes, Shrinks, KeepsLog, Idle, Doomed;
    var s' := Spawn(Leave(q, t, alias), Shut(alias, Spawned, id, q.next, ShutStart));
    SpawnedOk(s, s', s.next, alias, id);
    NoRowsChange(s, ByTask(t), id);
    TrimsShrinks(s, s', ByTask(t), id);
    HandsOver(s, s', t, Shut(alias, Spawned, id, s.next, ShutStart), id);
  }

  lemma CloseSettlesGood(s: State, t: TaskId, alias: Alias, force: bool, id: SessionId)
    requires Due(s, t, CloseMark(alias, force, id))
    ensures
      var quiet := s.(timers := s.timers - {id}, registry := s.registry - {id});
      var s' := Put(quiet, t, CloseSettle(alias, force, id)).(
        starts := s.starts - {id}, settling := s.settling[id := t]);
      Good(s, s', ByTask(t))
  {
    hide OpenTaskOk, RetryTaskOk, ExitTaskOk, RecoverTaskOk, ShutOk, AttachOk;
    hide Good, RowsOk, TablesOk, LogJustified, RowsChange, RowGoes, Shrinks, KeepsLog;
    var s' := Put(s.(timers := s.timers - {id}, registry := s.registry - {id}), t, CloseSettle(alias, force, id)).(
      starts := s.starts - {id}, settling := s.settling[id := t]);
    NoRowsChange(s, ByTask(t), id);
    TrimsShrinks(s, s', ByTask(t), id);
    Settles(s, s', t, CloseSettle(alias, force, id), id);
  }

  lemma CloseMarkGood(s: State, t: TaskId, alias: Alias, force: bool, id: SessionId, c: Choice)
    requires Inv(s) && Due(s, t, CloseMark(alias, force, id))
    ensures Good(s, StepCloseMark(s, t, alias, force, id, c), ByTask(t))
  {
    hide OpenTaskOk, RetryTaskOk, ExitTaskOk, RecoverTaskOk, ShutOk, AttachOk;
    hide Good, Inv, StartClose, RowsOk, TablesOk, LogJustified, RowsChange, RowGoes, Shrinks, KeepsLog;
    if c.cancelled {
      LeaveGood(s, t, alias);
    } else if id in s.starts {
      CloseSettlesGood(s, t, alias, force, id);
    } else {
      NotRunning(s, t, alias, id);
      StartCloseGood(s, s.(timers := s.timers - {id}, registry := s.registry - {id}), t, alias, force, id);
    }
  }

  lemma CloseSettleGood(s: State, t: TaskId, alias: Alias, force: bool, id: SessionId)
    requires Due(s, t, CloseSettle(alias, force, id))
    ensures Good(s, StepCloseSettle(s, t, alias, force, id), ByTask(t))
  {
    hide OpenTaskOk, RetryTaskOk, ExitTaskOk, RecoverTaskOk, ShutOk, AttachOk;
    hide Good, StartClose, RowsOk, TablesOk, LogJustified, RowsChange, RowGoes, Shrinks, KeepsLog;
    if id in s.opens {
      Waits(s, t, CloseSettle(alias, force, id));
    } else {
      StartCloseGood(s, s, t, alias, force, id);
    }
  }

  // ---- _do_close --------------------------------------------------------

  lemma AfterShutGood(
    s: State, q: State, t: TaskId, alias: Alias, caller: ShutFor, id: SessionId, op: nat, at: ShutStep)
    requires Due(s, t, Shut(alias, caller, id, op, at)) && Shrinks(s, q, ByTask(t), id)
    requires q.tasks == s.tasks && q.locks == s.locks && q.opens == s.opens && q.rows == s.rows
    requires q.starts == s.starts && q.settling == s.settling && q.next == s.next
    requires q.recoverer == s.recoverer && q.names == s.names && q.backlog == s.backlog
    ensures Good(s, AfterShut(q, t, alias, caller, id), ByTask(t))
  {
    hide Good, Shrinks, Due;
    if caller.Recovering? {
      AfterRecoveryShut(s, q, t, alias, caller, id, op, at);
    } else if caller.Retrying? {
      AfterRetryShut(s, q, t, alias, caller, id, op, at, id !in q.rows);
    } else {
      AfterRequestedShut(s, q, t, alias, caller, id, op, at);
    }
  }

  lemma AfterRetryShut(
    s: State, q: State, t: TaskId, alias: Alias, caller: ShutFor, id: SessionId, op: nat, at: ShutStep, gone: bool)
    requires Due(s, t, Shut(alias, caller, id, op, at)) && Shrinks(s, q, ByTask(t), id) && caller.Retrying?
    requires q.tasks == s.tasks && q.locks == s.locks && q.opens == s.opens && q.rows == s.rows
    requires q.starts == s.starts && q.settling == s.settling && gone == (id !in q.rows)
    ensures Good(s, Put(q, t, RetryCheck(alias, gone)), ByTask(t))
  {
    hide Good, RowsOk, TablesOk, LogJustified, RowsChange, RowGoes, Shrinks, KeepsLog, ShutOk;
    var s' := Put(q, t, RetryCheck(alias, gone));
    ShutKnows(s, t, alias, caller, id, op, at);
    ShrinksFurther(s, q, s', ByTask(t), id);
    Turns(s, s', t, RetryCheck(alias, gone), id);
  }

  lemma AfterRequestedShut(
    s: State, q: State, t: TaskId, alias: Alias, caller: ShutFor, id: SessionId, op: nat, at: ShutStep)
    requires Due(s, t, Shut(alias, caller, id, op, at)) && Shrinks(s, q, ByTask(t), id)
    requires caller.Spawned? || caller.Forced?
    requires q.tasks == s.tasks && q.locks == s.locks && q.opens == s.opens && q.rows == s.rows
    requires q.starts == s.starts && q.settling == s.settling
    ensures Good(s, AfterShut(q, t, alias, caller, id), ByTask(t))
  {
    hide Good, RowsOk, TablesOk, LogJustified, RowsChange, RowGoes, Shrinks, KeepsLog, ShutOk;
    var s' := AfterShut(q, t, alias, caller, id);
    ShutKnows(s, t, alias, caller, id, op, at);
    ShrinksFurther(s, q, s', ByTask(t), id);
    Leaves(s, s', t, id);
  }

  lemma AfterRecoveryShut(
    s: State, q: State, t: TaskId, alias: Alias, caller: ShutFor, id: SessionId, op: nat, at: ShutStep)
    requires Due(s, t, Shut(alias, caller, id, op, at)) && Shrinks(s, q, ByTask(t), id) && caller.Recovering?
    requires q.tasks == s.tasks && q.locks == s.locks && q.opens == s.opens && q.rows == s.rows
    requires q.starts == s.starts && q.settling == s.settling && q.next == s.next
    requires q.recoverer == s.recoverer && q.names == s.names && q.backlog == s.backlog
    ensures Good(s, Put(Unlock(q, alias), t, RecoverNext(caller.todo)), ByTask(t))
  {
    hide Good, RowsOk, TablesOk, LogJustified, RowsChange, RowGoes, Shrinks, KeepsLog, TaskOk;
    var s' := Put(Unlock(q, alias), t, RecoverNext(caller.todo));
    ShutKnows(s, t, alias, caller, id, op, at);
    RecoverNextOk(s, s', t, caller.todo);
    ShrinksFurther(s, q, s', ByTask(t), id);
    Turns(s, s', t, RecoverNext(caller.todo), id);
  }

  lemma ShutKnows(s: State, t: TaskId, alias: Alias, caller: ShutFor, id: SessionId, op: nat, at: ShutStep)
    requires Due(s, t, Shut(alias, caller, id, op, at))
    ensures !caller.Spawned? ==> Mine(s, t, alias)
    ensures caller.Recovering? ==> TodoOk(s, t, caller.todo)
  {
    hide Shared, TodoOk;
  }

  lemma RecoverNextOk(s: State, s': State, t: TaskId, todo: seq<Found>)
    requires TodoOk(s, t, todo) && SameTodo(s, s') && s'.rows == s.rows
    ensures TaskOk(s', t, RecoverNext(todo))
  {
    hide TodoOk;
    TodoWhateverElse(s, t, todo);
  }

  ghost predicate SameTodo(s: State, s': State) {
    s'.names == s.names && s'.backlog == s.backlog && s'.recoverer == s.recoverer
  }

  lemma TodoWhateverElse(s: State, t: TaskId, todo: seq<Found>)
    requires TodoOk(s, t, todo)
    ensures forall s': State | SameTodo(s, s') && s'.rows == s.rows :: TodoOk(s', t, todo)
  {
  }

  lemma ForgetShrinks(s: State, a: Actor, id: SessionId)
    requires LogJustified(s.log) && id !in s.rows && id !in s.opens
    ensures Shrinks(s, Forget(s, id), a, id)
  {
    hide LogJustified;
  }

  lemma UnchangedShrinks(s: State, a: Actor, id: SessionId)
    requires LogJustified(s.log)
    ensures Shrinks(s, s, a, id)
  {
    hide LogJustified;
  }

  lemma DropShutGood(s: State, t: TaskId, alias: Alias, caller: ShutFor, id: SessionId, op: nat, at: ShutStep)
    requires Due(s, t, Shut(alias, caller, id, op, at))
    ensures Good(s, DropShut(s, t, alias, caller), ByTask(t))
  {
    hide Good, RowsOk, TablesOk, LogJustified, RowsChange, RowGoes, Shrinks, KeepsLog;
    hide OpenTaskOk, CloseTaskOk, RetryTaskOk, ExitTaskOk, RecoverTaskOk, AttachOk;
    var s' := DropShut(s, t, alias, caller);
    NoRowsChange(s, ByTask(t), id);
    TrimsShrinks(s, s', ByTask(t), id);
    Leaves(s, s', t, id);
  }

  /** A closing task goes on: at most its row, the log and its tunnel change. */
  lemma ShutGoesOn(
    s: State, s': State, t: TaskId, alias: Alias, caller: ShutFor, id: SessionId, op: nat, at: ShutStep, next: ShutStep)
    requires Due(s, t, Shut(alias, caller, id, op, at))
    requires s' == s.(rows := s'.rows, log := s'.log, tunnels := s'.tunnels, next := s'.next,
                      tasks := s.tasks[t := Shut(alias, caller, id, op, next)]) && s'.next >= s.next
    requires RowsChange(s, s'.rows, ByTask(t), id) || RowGoes(s, s'.rows, s'.log, ByTask(t), id)
    requires LogOk(s.log, s'.log) && ShutOk(s', t, alias, caller, id, op, next)
    ensures Good(s, s', ByTask(t))
  {
    hide Good, ShutOk, RowsOk, TablesOk, LogJustified, RowsChange, RowGoes, Shrinks, KeepsLog;
    TrimsShrinks(s, s', ByTask(t), id);
    Turns(s, s', t, Shut(alias, caller, id, op, next), id);
  }

  lemma LookupNone(rows: Table, id: SessionId)
    ensures Lookup(rows, id).None? <==> id !in rows
  {
  }

  lemma PutKeepsTunnels(s: State, t: TaskId, task: Task)
    ensures Put(s, t, task).(tunnels := s.tunnels) == Put(s, t, task)
  {
  }

  lemma ShutStartsGood(
    s: State, t: TaskId, alias: Alias, caller: ShutFor, id: SessionId, op: nat, at: ShutStep,
    tunnels: map<SessionId, nat>, next: ShutStep)
    requires Due(s, t, Shut(alias, caller, id, op, at))
    requires (next.ShutRead? && (next.latest.None? ==> id !in s.rows)) || next.ShutRemote?
    ensures Good(s, Put(s, t, Shut(alias, caller, id, op, next)).(tunnels := tunnels), ByTask(t))
  {
    hide Good, TodoOk, Justified, RowsOk, TablesOk, LogJustified, RowsChange, RowGoes, Shrinks, KeepsLog;
    hide OpenTaskOk, CloseTaskOk, RetryTaskOk, ExitTaskOk, RecoverTaskOk, AttachOk;
    var s' := Put(s, t, Shut(alias, caller, id, op, next)).(tunnels := tunnels);
    NoRowsChange(s, ByTask(t), id);
    if caller.Recovering? { TodoWhateverElse(s, t, caller.todo); }
    ShutGoesOn(s, s', t, alias, caller, id, op, at, next);
  }

  lemma ShutBeginsGood(
    s: State, t: TaskId, alias: Alias, caller: ShutFor, id: SessionId, op: nat, at: ShutStep, c: Choice)
    requires Due(s, t, Shut(alias, caller, id, op, at)) && (at.ShutStart? || at.ShutRead?)
    ensures Good(s, StepShut(s, t, alias, caller, id, op, at, c), ByTask(t))
  {
    hide Good, AfterShut, DropShut, Put, Lookup, StopRemote, Retain, RowsOk, TablesOk, LogJustified;
    hide OpenTaskOk, CloseTaskOk, RetryTaskOk, ExitTaskOk, RecoverTaskOk, AttachOk, TodoOk, Justified, Doomed;
    assert Lookup(s.rows, id).None? <==> id !in s.rows by { LookupNone(s.rows, id); }
    if c.cancelled {
      DropShutGood(s, t, alias, caller, id, op, at);
    } else if at.ShutStart? {
      PutKeepsTunnels(s, t, Shut(alias, caller, id, op, ShutRead(Lookup(s.rows, id))));
      ShutStartsGood(s, t, alias, caller, id, op, at, s.tunnels, ShutRead(Lookup(s.rows, id)));
    } else if at.latest.None? {
      ForgetShrinks(s, ByTask(t), id);
      AfterShutGood(s, Forget(s, id), t, alias, caller, id, op, at);
    } else {
      ShutStartsGood(s, t, alias, caller, id, op, at, s.tunnels - {id}, ShutRemote(at.latest.value, id in s.tunnels));
    }
  }

  lemma StopRemoteJustified(log: seq<Act>, row: Row, id: SessionId, op: nat, c: Choice)
    requires LogJustified(log)
    ensures LogJustified(log + StopRemote(row, id, op, c).acts) && KeepsLog(log, log + StopRemote(row, id, op, c).acts)
    ensures StopRemote(row, id, op, c).absent ==> Justified(log + StopRemote(row, id, op, c).acts, op, id)
  {
    hide LogJustified;
    var acts := StopRemote(row, id, op, c).acts;
    if acts != [] { assert (log + acts)[|log|] == acts[0] && (log + acts[..1])[|log|] == acts[0]; }
    LogGrows(log, acts);
  }

  lemma ShutRemoteGood(
    s: State, t: TaskId, alias: Alias, caller: ShutFor, id: SessionId, op: nat, row: Row, tunnel: bool, c: Choice)
    requires Due(s, t, Shut(alias, caller, id, op, ShutRemote(row, tunnel)))
    ensures Good(s, StepShut(s, t, alias, caller, id, op, ShutRemote(row, tunnel), c), ByTask(t))
  {
    hide Good, DropShut, StopRemote, Justified, RowsOk, TablesOk, LogJustified, RowsChange, RowGoes, Shrinks, KeepsLog;
    hide OpenTaskOk, CloseTaskOk, RetryTaskOk, ExitTaskOk, RecoverTaskOk, AttachOk;
    if c.cancelled {
      DropShutGood(s, t, alias, caller, id, op, ShutRemote(row, tunnel));
    } else {
      NoRowsChange(s, ByTask(t), id);
      StopRemoteJustified(s.log, row, id, op, c);
      var r := StopRemote(row, id, op, c);
      ShutGoesOn(s, StepShut(s, t, alias, caller, id, op, ShutRemote(row, tunnel), c), t, alias, caller, id, op,
                 ShutRemote(row, tunnel), ShutClosing(r.absent, r.failed, tunnel));
    }
  }

  /** _do_close may patch its row in any way that keeps alias and close intent and adds no identity. */
  lemma ShutPatches(
    s: State, t: TaskId, alias: Alias, caller: ShutFor, id: SessionId, op: nat, at: ShutStep, rows: Table)
    requires Due(s, t, Shut(alias, caller, id, op, at))
    requires rows == ClearTunnelIdentity(s.rows, id) || rows == ClearRemoteIdentity(s.rows, id)
             || rows == MarkError(s.rows, id, StopFailed)
    ensures RowsChange(s, rows, ByTask(t), id)
  {
    ShutRowKnown(s, t, alias, caller, id, op, at);
    hide Due, RowsOk, TablesOk, LogJustified, Mine;
    if id in s.rows {
      ShutPatchOk(s, t, alias, caller, id, rows[id]);
    }
  }

  /** What a close knows of its row. */
  lemma ShutRowKnown(s: State, t: TaskId, alias: Alias, caller: ShutFor, id: SessionId, op: nat, at: ShutStep)
    requires Due(s, t, Shut(alias, caller, id, op, at))
    ensures id in s.rows ==>
      && s.rows[id].alias == alias && id !in s.opens
      && (s.rows[id].closeReason.Some? ==> s.rows[id].state == Stopping || s.rows[id].state == Error)
      && (s.rows[id].state == Stopping ==> s.rows[id].closeReason.Some?)
      && (caller.Spawned? || id in s.unacquired ==> s.rows[id].closeReason.Some?)
      && (!caller.Spawned? ==> Mine(s, t, alias))
  {
    hide TablesOk, LogJustified, StartsAwaited, TodoOk, Justified;
  }

  lemma ShutPatchOk(s: State, t: TaskId, alias: Alias, caller: ShutFor, id: SessionId, r': Row)
    requires id in s.rows && s.rows[id].alias == alias && id !in s.opens
    requires s.rows[id].closeReason.Some? ==> s.rows[id].state == Stopping || s.rows[id].state == Error
    requires s.rows[id].state == Stopping ==> s.rows[id].closeReason.Some?
    requires caller.Spawned? || id in s.unacquired ==> s.rows[id].closeReason.Some?
    requires !caller.Spawned? ==> Mine(s, t, alias)
    requires r' == s.rows[id].(localPort := None) || r' == s.rows[id].(identity := NO_IDENTITY)
             || r' == s.rows[id].(state := Error, errorCode := Some(StopFailed))
    ensures PatchOk(s, s.rows[id], r', ByTask(t), id)
  {
  }

  lemma ShutClosingGood(
    s: State, t: TaskId, alias: Alias, caller: ShutFor, id: SessionId, op: nat, at: ShutStep, c: Choice)
    requires Due(s, t, Shut(alias, caller, id, op, at)) && at.ShutClosing?
    ensures Good(s, StepShut(s, t, alias, caller, id, op, at, c), ByTask(t))
  {
    hide Good, Due, DropShut, ClearTunnelIdentity;
    if c.cancelled {
      DropShutGood(s, t, alias, caller, id, op, at);
    } else {
      ShutClosesGood(s, t, alias, caller, id, op, at, ShutClosed(
        at.absent, at.failed || !c.closed || (at.tunnel && !c.drained), !c.closed),
        if at.tunnel && c.drained then ClearTunnelIdentity(s.rows, id) else s.rows);
    }
  }

  lemma ShutClosesGood(
    s: State, t: TaskId, alias: Alias, caller: ShutFor, id: SessionId, op: nat, at: ShutStep, next: ShutStep,
    rows: Table)
    requires Due(s, t, Shut(alias, caller, id, op, at)) && at.ShutClosing?
    requires next.ShutClosed? && next.absent == at.absent
    requires rows == s.rows || rows == ClearTunnelIdentity(s.rows, id)
    ensures Good(s, Put(s, t, Shut(alias, caller, id, op, next)).(rows := rows), ByTask(t))
  {
    hide Good, ClearTunnelIdentity, RowsOk, TablesOk, LogJustified, RowsChange, RowGoes, Shrinks, KeepsLog, ShutOk;
    var s' := Put(s, t, Shut(alias, caller, id, op, next)).(rows := rows);
    NoRowsChange(s, ByTask(t), id);
    ShutPatches(s, t, alias, caller, id, op, at, ClearTunnelIdentity(s.rows, id));
    ShutClosedOk(s, s', t, alias, caller, id, op, at, next);
    ShutGoesOn(s, s', t, alias, caller, id, op, at, next);
  }

  lemma ShutClosedOk(
    s: State, s': State, t: TaskId, alias: Alias, caller: ShutFor, id: SessionId, op: nat, at: ShutStep, next: ShutStep)
    requires Due(s, t, Shut(alias, caller, id, op, at)) && at.ShutClosing?
    requires next.ShutClosed? && next.absent == at.absent
    requires s'.rows == s.rows || s'.rows == ClearTunnelIdentity(s.rows, id)
    requires s'.names == s.names && s'.opens == s.opens && s'.unacquired == s.unacquired && s'.locks == s.locks
    requires s'.log == s.log && SameTodo(s, s')
    ensures ShutOk(s', t, alias, caller, id, op, next)
  {
    hide Shared, Justified, TodoOk;
    if caller.Recovering? { TodoSurvivesUntunnel(s, t, caller.todo, id); }
  }

  lemma TodoSurvivesUntunnel(s: State, t: TaskId, todo: seq<Found>, id: SessionId)
    requires TodoOk(s, t, todo)
    ensures forall s': State | SameTodo(s, s') && (s'.rows == s.rows || s'.rows == ClearTunnelIdentity(s.rows, id)) ::
      TodoOk(s', t, todo)
  {
  }

  lemma TodoSurvivesClear(s: State, t: TaskId, todo: seq<Found>, id: SessionId)
    requires TodoOk(s, t, todo)
    ensures forall s': State | SameTodo(s, s') && (s'.rows == s.rows || s'.rows == ClearRemoteIdentity(s.rows, id)) ::
      TodoOk(s', t, todo)
  {
  }

  lemma RetainFields(s: State, id: SessionId, closed: bool)
    ensures var q := Retain(s, id, closed); q == s.(tunnels := q.tunnels, next := q.next) && q.next >= s.next
  {
  }

  lemma ShutClearsGood(
    s: State, t: TaskId, alias: Alias, caller: ShutFor, id: SessionId, op: nat, at: ShutStep, kept: bool, rows: Table)
    requires Due(s, t, Shut(alias, caller, id, op, at)) && at.ShutClosed?
    requires rows == s.rows || rows == ClearRemoteIdentity(s.rows, id)
    ensures
      var next := Shut(alias, caller, id, op, ShutCleared(at.absent, at.failed));
      Good(s, Put(Retain(s, id, kept), t, next).(rows := rows), ByTask(t))
  {
    hide Good, Retain, ClearRemoteIdentity, TodoOk, Justified, RowsOk, TablesOk, LogJustified, RowsChange, RowGoes;
    hide Shrinks, KeepsLog;
    hide OpenTaskOk, CloseTaskOk, RetryTaskOk, ExitTaskOk, RecoverTaskOk, AttachOk;
    var next := ShutCleared(at.absent, at.failed);
    var s' := Put(Retain(s, id, kept), t, Shut(alias, caller, id, op, next)).(rows := rows);
    RetainFields(s, id, kept);
    NoRowsChange(s, ByTask(t), id);
    ShutPatches(s, t, alias, caller, id, op, at, ClearRemoteIdentity(s.rows, id));
    if caller.Recovering? { TodoSurvivesClear(s, t, caller.todo, id); }
    ClearKeepsDoomed(s, id);
    ShutGoesOn(s, s', t, alias, caller, id, op, at, next);
  }

  lemma ClearKeepsDoomed(s: State, id: SessionId)
    ensures var rows := ClearRemoteIdentity(s.rows, id);
      Doomed(s, id) && id in rows ==> rows[id].closeReason.Some?
  {
  }

  lemma ShutClosedGood(
    s: State, t: TaskId, alias: Alias, caller: ShutFor, id: SessionId, op: nat, at: ShutStep, c: Choice)
    requires Due(s, t, Shut(alias, caller, id, op, at)) && at.ShutClosed?
    ensures Good(s, StepShut(s, t, alias, caller, id, op, at, c), ByTask(t))
  {
    hide Good, Due, DropShut, Retain, Put, AfterShut, StopRemote, Forget, ClearRemoteIdentity, ClearTunnelIdentity;
    if c.cancelled {
      DropShutGood(s, t, alias, caller, id, op, at);
    } else {
      ShutClearsGood(s, t, alias, caller, id, op, at, !at.retain || caller.Forced?,
                     if at.absent then ClearRemoteIdentity(s.rows, id) else s.rows);
    }
  }

  lemma DeletedJustified(log: seq<Act>, op: nat, id: SessionId, forced: bool)
    requires LogJustified(log) && (!forced ==> Justified(log, op, id))
    ensures LogJustified(log + [Deleted(op, id, forced)]) && KeepsLog(log, log + [Deleted(op, id, forced)])
  {
    hide LogJustified;
    var acts := [Deleted(op, id, forced)];
    assert log + acts[..0] == log;
    LogGrows(log, acts);
  }

  lemma TodoSurvivesMark(s: State, t: TaskId, todo: seq<Found>, id: SessionId, code: ErrorCode)
    requires TodoOk(s, t, todo)
    ensures forall s': State | SameTodo(s, s') && s'.rows == MarkError(s.rows, id, code) :: TodoOk(s', t, todo)
  {
  }

  lemma ShutMarksGood(s: State, t: TaskId, alias: Alias, caller: ShutFor, id: SessionId, op: nat, at: ShutStep)
    requires Due(s, t, Shut(alias, caller, id, op, at)) && at.ShutCleared?
    ensures
      var s' := Put(s, t, Shut(alias, caller, id, op, ShutMark)).(rows := MarkError(s.rows, id, StopFailed));
      Good(s, s', ByTask(t))
  {
    hide Good, TodoOk, Justified, RowsOk, TablesOk, LogJustified, RowsChange, RowGoes, Shrinks, KeepsLog;
    hide OpenTaskOk, CloseTaskOk, RetryTaskOk, ExitTaskOk, RecoverTaskOk, AttachOk;
    var s' := Put(s, t, Shut(alias, caller, id, op, ShutMark)).(rows := MarkError(s.rows, id, StopFailed));
    ShutPatches(s, t, alias, caller, id, op, at, MarkError(s.rows, id, StopFailed));
    if caller.Recovering? { TodoSurvivesMark(s, t, caller.todo, id, StopFailed); }
    ShutGoesOn(s, s', t, alias, caller, id, op, at, ShutMark);
  }

  lemma ShutClearedGood(
    s: State, t: TaskId, alias: Alias, caller: ShutFor, id: SessionId, op: nat, at: ShutStep, c: Choice)
    requires Due(s, t, Shut(alias, caller, id, op, at)) && at.ShutCleared?
    ensures Good(s, StepShut(s, t, alias, caller, id, op, at, c), ByTask(t))
  {
    hide Good, Put, Delete, MarkError, DropShut, Justified, TodoOk, RowsOk, TablesOk, LogJustified;
    hide OpenTaskOk, CloseTaskOk, RetryTaskOk, ExitTaskOk, RecoverTaskOk, AttachOk;
    if c.cancelled {
      DropShutGood(s, t, alias, caller, id, op, at);
    } else if !caller.Forced? && (at.failed || !at.absent) {
      ShutMarksGood(s, t, alias, caller, id, op, at);
    } else {
      ShutDeletesGood(s, t, alias, caller, id, op, at);
    }
  }

  lemma ShutDeletesGood(s: State, t: TaskId, alias: Alias, caller: ShutFor, id: SessionId, op: nat, at: ShutStep)
    requires Due(s, t, Shut(alias, caller, id, op, at)) && at.ShutCleared? && (caller.Forced? || at.absent)
    ensures
      var s' := Put(s, t, Shut(alias, caller, id, op, ShutDelete)).(
        rows := Delete(s.rows, id), log := s.log + [Deleted(op, id, caller.Forced?)]);
      Good(s, s', ByTask(t))
  {
    hide Good, RowsOk, TablesOk, LogJustified, RowsChange, RowGoes, Shrinks, KeepsLog;
    hide OpenTaskOk, CloseTaskOk, RetryTaskOk, ExitTaskOk, RecoverTaskOk, AttachOk;
    var s' := Put(s, t, Shut(alias, caller, id, op, ShutDelete)).(
      rows := Delete(s.rows, id), log := s.log + [Deleted(op, id, caller.Forced?)]);
    DeletedJustified(s.log, op, id, caller.Forced?);
    ShutDeletes(s, t, alias, caller, id, op, at);
    ShutGoesOn(s, s', t, alias, caller, id, op, at, ShutDelete);
  }

  lemma ShutDeletes(s: State, t: TaskId, alias: Alias, caller: ShutFor, id: SessionId, op: nat, at: ShutStep)
    requires Due(s, t, Shut(alias, caller, id, op, at))
    ensures RowGoes(s, Delete(s.rows, id), s.log + [Deleted(op, id, caller.Forced?)], ByTask(t), id)
  {
    hide TablesOk, LogJustified, StartsAwaited;
  }

  lemma ShutEndsGood(
    s: State, t: TaskId, alias: Alias, caller: ShutFor, id: SessionId, op: nat, at: ShutStep, c: Choice)
    requires Due(s, t, Shut(alias, caller, id, op, at)) && (at.ShutMark? || at.ShutDelete?)
    ensures Good(s, StepShut(s, t, alias, caller, id, op, at, c), ByTask(t))
  {
    hide Good, DropShut, AfterShut, RowsOk, TablesOk, LogJustified, RowsChange, RowGoes, Shrinks, KeepsLog;
    hide OpenTaskOk, CloseTaskOk, RetryTaskOk, ExitTaskOk, RecoverTaskOk, AttachOk;
    if c.cancelled {
      DropShutGood(s, t, alias, caller, id, op, at);
    } else if at.ShutMark? {
      UnchangedShrinks(s, ByTask(t), id);
      AfterShutGood(s, s, t, alias, caller, id, op, at);
    } else {
      ForgetShrinks(s, ByTask(t), id);
      AfterShutGood(s, Forget(s, id), t, alias, caller, id, op, at);
    }
  }
}
