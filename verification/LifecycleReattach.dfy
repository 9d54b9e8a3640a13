/** Good steps of retry, reattachment, tunnel exit and startup recovery. */
module LifecycleReattach {
  import opened Wrappers
  import opened Records
  import opened Database
  import opened Lifecycle
  import opened LifecycleInvariant
  import opened LifecycleSteps

  /** `q` is `s` with entries gone or logged and perhaps the lock taken; nothing issued yet. */
  ghost predicate Prepared(s: State, q: State, t: TaskId, id: SessionId) {
    && Shared(s) && t in s.tasks && Idle(s, t)
    && Shrinks(s, q, ByTask(t), id) && q.rows == s.rows && q.opens == s.opens && q.tasks == s.tasks
    && q.starts == s.starts && q.settling == s.settling && (q.locks == s.locks || LockMoves(s, q.locks, t))
  }

  lemma StartShutGood(s: State, q: State, t: TaskId, alias: Alias, caller: ShutFor, id: SessionId)
    requires Prepared(s, q, t, id) && LockMoves(s, q.locks, t)
    requires Mine(q, t, alias) && Known(s, id, alias) && id !in s.opens && (id in s.unacquired ==> Doomed(s, id))
    requires caller.Retrying? || (caller.Recovering? && TodoOk(q, t, caller.todo))
    ensures Good(s, StartShut(q, t, alias, caller, id), ByTask(t))
  {
    hide Good, LockMoves, RowsOk, TablesOk, LogJustified, RowsChange, RowGoes, Shrinks, KeepsLog;
    hide OpenTaskOk, CloseTaskOk, RetryTaskOk, ExitTaskOk, RecoverTaskOk, AttachOk;
    var s' := StartShut(q, t, alias, caller, id);
    ShrinksFurther(s, q, s', ByTask(t), id);
    Turns(s, s', t, Shut(alias, caller, id, q.next, ShutRead(Lookup(s.rows, id))), id);
  }

  lemma RetryLockGood(s: State, t: TaskId, alias: Alias, c: Choice)
    requires Inv(s) && Due(s, t, RetryLock(alias))
    ensures Good(s, StepRetryLock(s, t, alias, c), ByTask(t))
  {
    hide Good, Inv, Done, Take, FindByAlias, Shared, TaskOk;
    if c.cancelled {
      DoneGood(s, t);
    } else if alias in s.locks {
      Waits(s, t, RetryLock(alias));
    } else {
      RetryTakesGood(s, t, alias);
    }
  }

  lemma RetryTakesGood(s: State, t: TaskId, alias: Alias)
    requires Inv(s) && Due(s, t, RetryLock(alias)) && alias !in s.locks
    ensures
      var found := FindByAlias(s.rows, alias);
      var seen := if found.Some? then Some(Found(found.value, s.rows[found.value])) else None;
      Good(s, Take(s, t, alias, RetryRead(alias, seen)), ByTask(t))
  {
    hide OpenTaskOk, CloseTaskOk, ExitTaskOk, RecoverTaskOk, ShutOk, AttachOk;
    hide Good, FindByAlias, RowsOk, TablesOk, LogJustified, OpenOk;
    var found := FindByAlias(s.rows, alias);
    var seen := if found.Some? then Some(Found(found.value, s.rows[found.value])) else None;
    if found.Some? {
      FoundCanRetry(s, t, alias, found.value);
      RetryOkTaken(s, Take(s, t, alias, RetryRead(alias, seen)), t, alias, found.value);
    }
    hide RetryOk;
    TakeGood(s, t, alias, RetryRead(alias, seen));
  }

  lemma RetryOkTaken(s: State, s': State, t: TaskId, alias: Alias, id: SessionId)
    requires id in s.rows && Known(s, id, alias) && id !in s.backlog && Coherent(s, id, s.rows[id])
    requires s.rows[id].state == Error ==> Settled(s.opens, id)
    requires s.rows[id].state == Error ==>
      if s.rows[id].closeReason == None then id !in s.unacquired else Doomed(s, id)
    requires s'.rows == s.rows && s'.names == s.names && s'.opens == s.opens && s'.backlog == s.backlog
    requires s'.unacquired == s.unacquired && Mine(s', t, alias)
    ensures s.rows[id].state == Error ==> RetryOk(s', t, alias, id, s.rows[id])
  {
  }

  lemma FoundCanRetry(s: State, t: TaskId, alias: Alias, id: SessionId)
    requires Inv(s) && s.recoverer.None? && id in s.rows && s.rows[id].alias == alias && alias !in s.locks
    ensures var row := s.rows[id];
      && Known(s, id, alias) && id !in s.backlog && Coherent(s, id, row)
      && (row.state == Error ==> Settled(s.opens, id))
      && (row.state == Error ==> if row.closeReason == None then id !in s.unacquired else Doomed(s, id))
  {
    hide TaskOk, LogJustified;
    if id in s.opens { assert OpenOk(s, id, s.opens[id]); }
  }

  // ---- a failed attempt -------------------------------------------------

  /** What a reattachment knows about its session, whoever called it. */
  ghost predicate Attaching(s: State, q: State, t: TaskId, alias: Alias, on: AttachFor, id: SessionId, row: Row) {
    && Mine(q, t, alias) && Known(s, id, alias) && Attachable(q, id)
    && (!on.ByExit? ==> id !in s.opens)
    && (on.ByRetry? ==> row.closeReason == None)
    && (on.ByRecovery? ==> TodoOk(q, t, on.todo))
    && q.names == s.names && q.unacquired == s.unacquired && q.backlog <= s.backlog
  }

  lemma RetryAttemptFails(
    s: State, q: State, t: TaskId, alias: Alias, id: SessionId, row: Row, op: nat, why: Option<Unavailable>, c: Choice)
    requires Prepared(s, q, t, id) && Attaching(s, q, t, alias, ByRetry, id, row)
    requires q.locks == s.locks && (why.None? && c.again ==> Coherent(s, id, row) && id !in q.registry)
    ensures Good(s, AttachFailed(q, t, alias, ByRetry, id, row, op, why, c), ByTask(t))
  {
    hide Good, StartShut, RowsOk, TablesOk, LogJustified, RowsChange, RowGoes, Shrinks, KeepsLog;
    hide OpenTaskOk, CloseTaskOk, ShutOk, ExitTaskOk, RecoverTaskOk, AttachOk;
    var s' := AttachFailed(q, t, alias, ByRetry, id, row, op, why, c);
    if why.None? && c.again {
      ShrinksFurther(s, q, s', ByTask(t), id);
      Turns(s, s', t, RetrySleep(alias, id, row), id);
    } else if why.None? || why.value == Absent {
      StartShutGood(s, q, t, alias, Retrying, id);
    } else {
      ShrinksFurther(s, q, s', ByTask(t), id);
      Leaves(s, s', t, id);
    }
  }

  lemma ExitAttemptFails(
    s: State, q: State, t: TaskId, alias: Alias, id: SessionId, row: Row, op: nat, why: Option<Unavailable>, c: Choice)
    requires Prepared(s, q, t, id) && Attaching(s, q, t, alias, ByExit, id, row)
    requires q.locks == s.locks
    ensures Good(s, AttachFailed(q, t, alias, ByExit, id, row, op, why, c), ByTask(t))
  {
    hide Good, Shared, RowsChange, RowGoes, Shrinks, KeepsLog, TaskOk, Idle, LockMoves;
    var next := if why.None? && c.again then ExitWait(alias, id) else ExitGiveUp(alias, id);
    var s' := Put(Unlock(q, alias), t, next);
    ExitWaitsOk(s, q, s', t, alias, id, row, next);
    LockTakenOrGivenBack(s, q, t, alias);
    ShrinksFurther(s, q, s', ByTask(t), id);
    Turns(s, s', t, next, id);
  }

  lemma ExitWaitsOk(s: State, q: State, s': State, t: TaskId, alias: Alias, id: SessionId, row: Row, next: Task)
    requires Attaching(s, q, t, alias, ByExit, id, row)
    requires next == ExitWait(alias, id) || next == ExitGiveUp(alias, id)
    requires s'.names == q.names && s'.unacquired == q.unacquired && s'.opens == q.opens && s'.backlog == q.backlog
    ensures TaskOk(s', t, next)
  {
  }

  /** Statements a reattachment issues on a row it may attach. */
  lemma AttachPatches(s: State, a: Actor, id: SessionId, rows: Table, code: ErrorCode)
    requires RowsOk(s) && id !in s.unacquired && Settled(s.opens, id)
    requires rows == ClearRemoteIdentity(s.rows, id) || rows == MarkError(s.rows, id, code)
             || rows == BeginRecovery(s.rows, id)
    ensures RowsChange(s, rows, a, id)
  {
    IntentOf(s);
    hide RowsOk;
    if id in s.rows { AttachPatchOk(s, a, id, rows[id], code); }
  }

  lemma AttachPatchOk(s: State, a: Actor, id: SessionId, r': Row, code: ErrorCode)
    requires id in s.rows && CloseIntent(s.rows) && id !in s.unacquired && Settled(s.opens, id)
    requires r' == s.rows[id] || r' == s.rows[id].(identity := NO_IDENTITY) || r' == s.rows[id].(localPort := None)
             || r' == s.rows[id].(state := Error, errorCode := Some(code))
    ensures PatchOk(s, s.rows[id], r', a, id)
  {
  }

  lemma TodoSurvivesDelete(s: State, t: TaskId, todo: seq<Found>, id: SessionId)
    requires TodoOk(s, t, todo)
    ensures forall s': State | SameTodo(s, s') && s'.rows == Delete(s.rows, id) :: TodoOk(s', t, todo)
  {
  }

  lemma RecoveryDeletes(s: State, q: State, t: TaskId, alias: Alias, id: SessionId, op: nat, todo: seq<Found>)
    requires Prepared(s, q, t, id) && q.locks == s.locks
    requires Known(s, id, alias) && Attachable(q, id) && id !in s.opens && Mine(q, t, alias)
    requires TodoOk(q, t, todo) && q.names == s.names && q.unacquired == s.unacquired
    requires Justified(q.log, op, id) && Quiet(q, id)
    ensures
      var s' := Put(q, t, RecoverDelete(alias, id, todo)).(
        rows := Delete(q.rows, id), log := q.log + [Deleted(op, id, false)]);
      Good(s, s', ByTask(t))
  {
    hide Good, TodoOk, Justified, LockMoves, RowsOk, TablesOk, LogJustified, RowsChange, RowGoes, Shrinks, KeepsLog;
    hide OpenTaskOk, CloseTaskOk, ShutOk, ExitTaskOk, RetryTaskOk, AttachOk;
    var s' := Put(q, t, RecoverDelete(alias, id, todo)).(
      rows := Delete(q.rows, id), log := q.log + [Deleted(op, id, false)]);
    ShrinksLog(s, q, ByTask(t), id);
    DeletedJustified(q.log, op, id, false);
    DeletionGoes(s, q.log, t, alias, id, Deleted(op, id, false));
    ShrinksFurther(s, q, s', ByTask(t), id);
    TodoSurvivesDelete(q, t, todo, id);
    LockTakenOrGivenBack(s, q, t, alias);
    Turns(s, s', t, RecoverDelete(alias, id, todo), id);
  }

  lemma ShrinksLog(s: State, q: State, a: Actor, id: SessionId)
    requires Shrinks(s, q, a, id)
    ensures LogJustified(q.log) && |q.log| >= |s.log|
  {
    hide LogJustified, RowsChange, RowGoes, Releases;
  }

  lemma DeletionGoes(s: State, log: seq<Act>, t: TaskId, alias: Alias, id: SessionId, act: Act)
    requires RowsOk(s) && Known(s, id, alias) && Mine(s, t, alias) && act.Deleted? && act.id == id && |log| >= |s.log|
    ensures RowGoes(s, Delete(s.rows, id), log + [act], ByTask(t), id)
  {
    NamedAlias(s, id);
    hide RowsOk;
  }

  lemma NamedAlias(s: State, id: SessionId)
    requires RowsOk(s) && id in s.names
    ensures id in s.rows ==> s.rows[id].alias == s.names[id]
  {
  }

  lemma LockTakenOrGivenBack(s: State, q: State, t: TaskId, alias: Alias)
    requires q.locks == s.locks || (alias !in s.locks && q.locks == s.locks[alias := t])
    requires Mine(q, t, alias)
    ensures LockMoves(s, q.locks, t) && LockMoves(s, q.locks - {alias}, t)
  {
    if q.locks != s.locks { assert q.locks - {alias} == s.locks; }
  }

  lemma RecoveryAttemptFails(
    s: State, q: State, t: TaskId, alias: Alias, id: SessionId, row: Row, op: nat, why: Option<Unavailable>,
    todo: seq<Found>, c: Choice)
    requires Prepared(s, q, t, id) && Attaching(s, q, t, alias, ByRecovery(todo), id, row)
    requires q.locks == s.locks || (alias !in s.locks && q.locks == s.locks[alias := t])
    requires why == Some(Absent) ==> q.locks == s.locks && Justified(q.log, op, id) && Quiet(q, id)
    ensures Good(s, AttachFailed(q, t, alias, ByRecovery(todo), id, row, op, why, c), ByTask(t))
  {
    hide Good, LockMoves, Justified, TodoOk, RowsOk, TablesOk, LogJustified, RowsChange, RowGoes, Shrinks, KeepsLog;
    hide OpenTaskOk, CloseTaskOk, ShutOk, ExitTaskOk, RetryTaskOk, RecoverTaskOk, AttachOk;
    if why == Some(Absent) && (row.state == Starting || row.state == Error) {
      RecoveryDeletes(s, q, t, alias, id, op, todo);
    } else if why == Some(Absent) {
      RecoveryPatches(s, q, t, alias, id, row, RecoverClear(alias, id, todo), ClearRemoteIdentity(s.rows, id), todo);
    } else if why.Some? || row.state != Error {
      var marked := MarkError(s.rows, id, RecoveryFailed);
      RecoveryPatches(s, q, t, alias, id, row, RecoverMark(alias, id, todo), marked, todo);
    } else {
      RecoveryGoesOn(s, q, t, alias, id, todo);
    }
  }

  lemma TodoSurvivesPatch(s: State, t: TaskId, todo: seq<Found>, id: SessionId)
    requires TodoOk(s, t, todo)
    ensures forall s': State | SameTodo(s, s')
      && (s'.rows == ClearRemoteIdentity(s.rows, id) || s'.rows == MarkError(s.rows, id, RecoveryFailed)) ::
      TodoOk(s', t, todo)
  {
  }

  /** A statement on the row, with the lock kept for the next one. */
  lemma RecoveryPatches(
    s: State, q: State, t: TaskId, alias: Alias, id: SessionId, row: Row, task: Task, rows: Table, todo: seq<Found>)
    requires Prepared(s, q, t, id) && Attaching(s, q, t, alias, ByRecovery(todo), id, row)
    requires q.locks == s.locks || (alias !in s.locks && q.locks == s.locks[alias := t])
    requires task == RecoverClear(alias, id, todo) || task == RecoverMark(alias, id, todo)
    requires rows == ClearRemoteIdentity(s.rows, id) || rows == MarkError(s.rows, id, RecoveryFailed)
    ensures Good(s, Put(q, t, task).(rows := rows), ByTask(t))
  {
    hide Good, LockMoves, TodoOk, RowsOk, TablesOk, LogJustified, RowsChange, RowGoes, Shrinks, KeepsLog;
    hide OpenTaskOk, CloseTaskOk, ShutOk, ExitTaskOk, RetryTaskOk, AttachOk;
    var s' := Put(q, t, task).(rows := rows);
    LockTakenOrGivenBack(s, q, t, alias);
    AttachPatches(s, ByTask(t), id, rows, RecoveryFailed);
    ShrinksFurther(s, q, s', ByTask(t), id);
    TodoSurvivesPatch(q, t, todo, id);
    Turns(s, s', t, task, id);
  }

  /** The lock is given back and the next record taken up. */
  lemma RecoveryGoesOn(s: State, q: State, t: TaskId, alias: Alias, id: SessionId, todo: seq<Found>)
    requires Prepared(s, q, t, id) && Mine(q, t, alias) && TodoOk(q, t, todo)
    requires q.locks == s.locks || (alias !in s.locks && q.locks == s.locks[alias := t])
    ensures Good(s, Put(Unlock(q, alias), t, RecoverNext(todo)), ByTask(t))
  {
    hide Good, LockMoves, RowsOk, TablesOk, LogJustified, RowsChange, RowGoes, Shrinks, KeepsLog;
    hide OpenTaskOk, CloseTaskOk, ShutOk, ExitTaskOk, RetryTaskOk, AttachOk;
    var s' := Put(Unlock(q, alias), t, RecoverNext(todo));
    LockTakenOrGivenBack(s, q, t, alias);
    ShrinksFurther(s, q, s', ByTask(t), id);
    Turns(s, s', t, RecoverNext(todo), id);
  }

  lemma AttemptFails(
    s: State, q: State, t: TaskId, alias: Alias, on: AttachFor, id: SessionId, row: Row, op: nat,
    why: Option<Unavailable>, c: Choice)
    requires Prepared(s, q, t, id) && Attaching(s, q, t, alias, on, id, row)
    requires q.locks == s.locks || (on.ByRecovery? && alias !in s.locks && q.locks == s.locks[alias := t])
    requires on.ByRetry? && why.None? && c.again ==> Coherent(s, id, row) && id !in q.registry
    requires why == Some(Absent) ==> q.locks == s.locks && Justified(q.log, op, id) && (on.ByRecovery? ==> Quiet(q, id))
    ensures Good(s, AttachFailed(q, t, alias, on, id, row, op, why, c), ByTask(t))
  {
    hide Good, Prepared, Attaching, Quiet, AttachFailed;
    match on
    case ByRetry => RetryAttemptFails(s, q, t, alias, id, row, op, why, c);
    case ByExit => ExitAttemptFails(s, q, t, alias, id, row, op, why, c);
    case ByRecovery(todo) => RecoveryAttemptFails(s, q, t, alias, id, row, op, why, todo, c);
  }

  // ---- an attempt -------------------------------------------------------

  lemma StartAttachGood(
    s: State, q: State, t: TaskId, alias: Alias, on: AttachFor, id: SessionId, row: Row, c: Choice)
    requires Prepared(s, q, t, id) && Attaching(s, q, t, alias, on, id, row)
    requires q.locks == s.locks || (on.ByRecovery? && alias !in s.locks && q.locks == s.locks[alias := t])
    requires Coherent(s, id, row) && (on.ByRecovery? ==> Quiet(q, id)) && (on.ByRetry? ==> id !in q.registry)
    ensures Good(s, StartAttach(q, t, alias, on, id, row, c), ByTask(t))
  {
    hide Good, AttachFailed, Prepared, Attaching, Quiet, Coherent, AttachOk, RowsOk, TablesOk, LogJustified;
    hide RowsChange, RowGoes, Shrinks, KeepsLog;
    hide OpenTaskOk, CloseTaskOk, ShutOk, ExitTaskOk, RetryTaskOk, RecoverTaskOk;
    if id in q.tunnels {
      AttemptFails(s, q, t, alias, on, id, row, q.next, None, c);
    } else {
      BeginsGood(s, q, t, alias, on, id, row);
    }
  }

  lemma TodoSurvivesBegin(s: State, t: TaskId, todo: seq<Found>, id: SessionId)
    requires TodoOk(s, t, todo)
    ensures forall s': State | SameTodo(s, s') && s'.rows == BeginRecovery(s.rows, id) :: TodoOk(s', t, todo)
  {
  }

  lemma BeginsGood(s: State, q: State, t: TaskId, alias: Alias, on: AttachFor, id: SessionId, row: Row)
    requires Prepared(s, q, t, id) && Attaching(s, q, t, alias, on, id, row)
    requires q.locks == s.locks || (on.ByRecovery? && alias !in s.locks && q.locks == s.locks[alias := t])
    requires Coherent(s, id, row) && (on.ByRecovery? ==> Quiet(q, id)) && (on.ByRetry? ==> id !in q.registry)
    ensures
      var s' := Put(q, t, Attach(alias, on, id, row, q.next, AttachBegin(Recoverable(q.rows, id)))).(
        rows := BeginRecovery(q.rows, id), next := q.next + 1);
      Good(s, s', ByTask(t))
  {
    hide Good, LockMoves, TodoOk, RowsOk, TablesOk, LogJustified, RowsChange, RowGoes, Shrinks, KeepsLog;
    hide OpenTaskOk, CloseTaskOk, ShutOk, ExitTaskOk, RetryTaskOk, RecoverTaskOk;
    var task := Attach(alias, on, id, row, q.next, AttachBegin(Recoverable(q.rows, id)));
    var s' := Put(q, t, task).(rows := BeginRecovery(q.rows, id), next := q.next + 1);
    AttachPatches(s, ByTask(t), id, s'.rows, RecoveryFailed);
    LockTakenOrGivenBack(s, q, t, alias);
    ShrinksFurther(s, q, s', ByTask(t), id);
    if on.ByRecovery? { TodoSurvivesBegin(q, t, on.todo, id); }
    Turns(s, s', t, task, id);
  }

  lemma RetainPrepared(s: State, q: State, t: TaskId, id: SessionId, closed: bool)
    requires Prepared(s, q, t, id)
    ensures Prepared(s, Retain(q, id, closed), t, id)
  {
    hide Shared, RowsChange, Releases, KeepsLog, LogJustified, LockMoves, Idle;
  }

  lemma AttemptGivesUp(
    s: State, q: State, t: TaskId, alias: Alias, on: AttachFor, id: SessionId, row: Row, op: nat,
    why: Option<Unavailable>, c: Choice)
    requires Prepared(s, q, t, id) && Attaching(s, q, t, alias, on, id, row) && q.locks == s.locks
    requires on.ByRetry? && c.again ==> Coherent(s, id, row) && id !in q.registry
    requires why == Some(Absent) ==> Justified(q.log, op, id) && (on.ByRecovery? ==> Quiet(q, id))
    ensures Good(s, AttachGivesUp(q, t, alias, on, id, row, op, why, c), ByTask(t))
  {
    hide Good, Prepared, AttachFailed;
    RetainPrepared(s, q, t, id, c.closed);
    AttemptFails(s, Retain(q, id, c.closed), t, alias, on, id, row, op, if c.closed then why else None, c);
  }

  lemma DueIsPrepared(s: State, t: TaskId, task: Task, id: SessionId)
    requires Due(s, t, task) && !task.CloseSettle? && !task.RetrySettle?
    ensures Prepared(s, s, t, id)
  {
    hide RowsOk, TablesOk, TaskOk, RowsChange;
    NoRowsChange(s, ByTask(t), id);
  }

  lemma AttachIsAttaching(
    s: State, t: TaskId, alias: Alias, on: AttachFor, id: SessionId, row: Row, op: nat, step: AttachStep)
    requires Due(s, t, Attach(alias, on, id, row, op, step))
    ensures Attaching(s, s, t, alias, on, id, row)
  {
    hide Shared;
  }

  lemma AttachDropsGood(
    s: State, t: TaskId, alias: Alias, on: AttachFor, id: SessionId, row: Row, op: nat, step: AttachStep, closed: bool)
    requires Due(s, t, Attach(alias, on, id, row, op, step))
    ensures Good(s, Leave(Retain(s, id, closed), t, alias), ByTask(t))
  {
    hide Good, RowsOk, TablesOk, LogJustified, RowsChange, RowGoes, Shrinks, KeepsLog;
    hide OpenTaskOk, CloseTaskOk, ShutOk, ExitTaskOk, RetryTaskOk, RecoverTaskOk;
    NoRowsChange(s, ByTask(t), id);
    TrimsShrinks(s, Leave(Retain(s, id, closed), t, alias), ByTask(t), id);
    Leaves(s, Leave(Retain(s, id, closed), t, alias), t, id);
  }

  /** The helper reported no running process: evidence is logged, and removal may be issued. */
  lemma AbsenceLogged(s: State, t: TaskId, task: Task, id: SessionId, op: nat)
    requires Due(s, t, task) && !task.CloseSettle? && !task.RetrySettle?
    ensures Prepared(s, s.(log := s.log + [Confirmed(op, id), Removing(op, id)]), t, id)
    ensures Justified(s.log + [Confirmed(op, id), Removing(op, id)], op, id)
    ensures LogJustified(s.log + [Confirmed(op, id), Removing(op, id)])
    ensures KeepsLog(s.log, s.log + [Confirmed(op, id), Removing(op, id)])
  {
    hide RowsOk, TablesOk, TaskOk, RowsChange, LogJustified;
    NoRowsChange(s, ByTask(t), id);
    var acts := [Confirmed(op, id), Removing(op, id)];
    assert (s.log + acts)[|s.log|] == acts[0] && (s.log + acts[..1])[|s.log|] == acts[0];
    LogGrows(s.log, acts);
  }

  lemma AttachAbsentGood(
    s: State, t: TaskId, alias: Alias, on: AttachFor, id: SessionId, row: Row, op: nat, c: Choice)
    requires Due(s, t, Attach(alias, on, id, row, op, AttachBegin(true)))
    ensures
      var asked := s.(log := s.log + [Confirmed(op, id), Removing(op, id)]);
      var why := if c.removed then Some(Absent) else None;
      Good(s, AttachGivesUp(asked, t, alias, on, id, row, op, why, c), ByTask(t))
  {
    hide Good, Prepared, AttachGivesUp, Shared;
    AbsenceLogged(s, t, Attach(alias, on, id, row, op, AttachBegin(true)), id, op);
    AttemptGivesUp(s, s.(log := s.log + [Confirmed(op, id), Removing(op, id)]), t, alias, on, id, row, op,
                   if c.removed then Some(Absent) else None, c);
  }

  /** The identity written is one the snapshot accepts, so it fills or repeats what is there. */
  lemma CompletePatches(s: State, t: TaskId, alias: Alias, id: SessionId, row: Row, found: RuntimeIdentity, port: int)
    requires RowsOk(s) && Attachable(s, id) && Mine(s, t, alias) && Known(s, id, alias)
    requires Coherent(s, id, row) && Matches(row, found)
    ensures RowsChange(s, CompleteRecovery(s.rows, id, found, port), ByTask(t), id)
  {
  }

  lemma AttachBeginGood(
    s: State, t: TaskId, alias: Alias, on: AttachFor, id: SessionId, row: Row, op: nat, eligible: bool, c: Choice)
    requires Due(s, t, Attach(alias, on, id, row, op, AttachBegin(eligible)))
    ensures Good(s, StepAttach(s, t, alias, on, id, row, op, AttachBegin(eligible), c), ByTask(t))
  {
    hide Good, Prepared, AttachGivesUp, AttachFailed, RowsOk, TablesOk, LogJustified, RowsChange;
    hide OpenTaskOk, CloseTaskOk, ShutOk, ExitTaskOk, RetryTaskOk, RecoverTaskOk;
    var task := Attach(alias, on, id, row, op, AttachBegin(eligible));
    var s' := StepAttach(s, t, alias, on, id, row, op, AttachBegin(eligible), c);
    AttachIsAttaching(s, t, alias, on, id, row, op, AttachBegin(eligible));
    DueIsPrepared(s, t, task, id);
    if c.cancelled {
      AttachDropsGood(s, t, alias, on, id, row, op, AttachBegin(eligible), !eligible || c.closed);
    } else if !eligible {
      AttemptFails(s, s, t, alias, on, id, row, op, Some(NotEligible), c);
    } else if !c.connected {
      AttemptGivesUp(s, s, t, alias, on, id, row, op, None, c);
    } else {
      match IdentityFromInspection(row, c.inspection)
      case Err(why) =>
        if why == Absent {
          AttachAbsentGood(s, t, alias, on, id, row, op, c);
        } else {
          AttemptGivesUp(s, s, t, alias, on, id, row, op, Some(why), c);
        }
      case Ok(found) =>
        if !c.healthy {
          AttemptGivesUp(s, s, t, alias, on, id, row, op, None, c);
        } else {
          CompleteGood(s, t, alias, on, id, row, op, found, c);
        }
    }
  }

  lemma IntentOf(s: State)
    requires RowsOk(s)
    ensures CloseIntent(s.rows)
  {
    hide RowsNamed, RowsReserved, OneRowPerAlias, CloseIntent, UnacquiredUntouched;
  }

  /** A recovery that began completes: while its task holds the alias lock, nobody can record a close. */
  lemma CompletedOk(
    s: State, s': State, t: TaskId, alias: Alias, on: AttachFor, id: SessionId, row: Row, step: AttachStep,
    found: RuntimeIdentity, port: int)
    requires AttachOk(s, t, alias, on, id, row, AttachBegin(true)) && CloseIntent(s.rows)
    requires step == AttachComplete(Recoverable(s.rows, id), port)
    requires s' == s.(rows := CompleteRecovery(s.rows, id, found, port), tasks := s'.tasks)
    requires on.ByRecovery? ==> TodoOk(s', t, on.todo)
    ensures AttachOk(s', t, alias, on, id, row, step)
  {
    hide TodoOk;
  }

  lemma BeginKnows(
    s: State, t: TaskId, alias: Alias, on: AttachFor, id: SessionId, row: Row)
    requires AttachOk(s, t, alias, on, id, row, AttachBegin(true))
    ensures Mine(s, t, alias) && Known(s, id, alias) && Attachable(s, id) && Coherent(s, id, row) && id !in s.backlog
    ensures on.ByRecovery? ==> TodoOk(s, t, on.todo)
  {
    hide TodoOk;
  }

  lemma CompleteGood(
    s: State, t: TaskId, alias: Alias, on: AttachFor, id: SessionId, row: Row, op: nat, found: RuntimeIdentity,
    c: Choice)
    requires Due(s, t, Attach(alias, on, id, row, op, AttachBegin(true))) && Matches(row, found)
    ensures
      var s' := Put(s, t, Attach(alias, on, id, row, op, AttachComplete(Recoverable(s.rows, id), c.port))).(
        rows := CompleteRecovery(s.rows, id, found, c.port));
      Good(s, s', ByTask(t))
  {
    hide Good, RowsOk, TablesOk, LogJustified, RowsChange, RowGoes, Shrinks, KeepsLog;
    hide AttachOk, TodoOk;
    hide OpenTaskOk, CloseTaskOk, ShutOk, ExitTaskOk, RetryTaskOk, RecoverTaskOk;
    var task := Attach(alias, on, id, row, op, AttachComplete(Recoverable(s.rows, id), c.port));
    var s' := Put(s, t, task).(rows := CompleteRecovery(s.rows, id, found, c.port));
    BeginKnows(s, t, alias, on, id, row);
    CompletePatches(s, t, alias, id, row, found, c.port);
    TrimsShrinks(s, s', ByTask(t), id);
    if on.ByRecovery? { TodoSurvivesComplete(s, t, alias, id, found, c.port, on.todo); }
    IntentOf(s);
    CompletedOk(s, s', t, alias, on, id, row, task.step, found, c.port);
    Turns(s, s', t, task, id);
  }

  lemma TodoSurvivesComplete(
    s: State, t: TaskId, alias: Alias, id: SessionId, found: RuntimeIdentity, port: int, todo: seq<Found>)
    requires TodoOk(s, t, todo) && id !in s.backlog
    ensures forall s': State | SameTodo(s, s') && s'.rows == CompleteRecovery(s.rows, id, found, port) ::
      TodoOk(s', t, todo)
  {
  }

  lemma InstallGrows(s: State, s': State, t: TaskId, alias: Alias, id: SessionId, port: int)
    requires RowsOk(s) && TablesOk(s) && Mine(s, t, alias) && Known(s, id, alias) && Attachable(s, id) && id in s.rows
    requires s' == s.(tunnels := s'.tunnels, next := s.next + 1, tasks := s'.tasks,
                      registry := s.registry[id := port], watched := s.watched[s.next := id])
    ensures Grows(s, s', ByTask(t), id)
  {
  }

  lemma InstalledOk(
    s: State, s': State, t: TaskId, alias: Alias, on: AttachFor, id: SessionId, row: Row, op: nat, port: int)
    requires AttachOk(s, t, alias, on, id, row, AttachComplete(true, port))
    requires s'.rows == s.rows && s'.names == s.names && s'.unacquired == s.unacquired && s'.locks == s.locks
    requires s'.backlog == s.backlog && s'.recoverer == s.recoverer && s'.opens == s.opens
    ensures AttachOk(s', t, alias, on, id, row, AttachRead(id in s.rows))
    ensures Mine(s, t, alias) && Known(s, id, alias) && Attachable(s, id) && id in s.rows
  {
    hide TodoOk;
    if on.ByRecovery? { TodoWhateverElse(s, t, on.todo); }
  }

  lemma InstalledGood(
    s: State, s': State, t: TaskId, alias: Alias, on: AttachFor, id: SessionId, row: Row, op: nat, port: int)
    requires Due(s, t, Attach(alias, on, id, row, op, AttachComplete(true, port)))
    requires s' == s.(tunnels := s'.tunnels, next := s.next + 1, registry := s.registry[id := port],
                      watched := s.watched[s.next := id],
                      tasks := s.tasks[t := Attach(alias, on, id, row, op, AttachRead(id in s.rows))])
    ensures Good(s, s', ByTask(t))
  {
    hide Good, Core, Moves, TasksOk, Grows, LockMoves, RowsOk, TablesOk, LogJustified, AttachOk;
    hide OpenTaskOk, CloseTaskOk, ShutOk, ExitTaskOk, RetryTaskOk, RecoverTaskOk, Mine, Known, Attachable;
    var task := Attach(alias, on, id, row, op, AttachRead(id in s.rows));
    SameLocks(s, t);
    InstalledOk(s, s', t, alias, on, id, row, op, port);
    InstallGrows(s, s', t, alias, id, port);
    TurnTasksOk(s, s', t, task);
    GrowsIsCore(s, s', ByTask(t), id);
    OneMoves(s, s', t, task);
    Combine(s, s', ByTask(t));
  }

  lemma InstallGood(
    s: State, t: TaskId, alias: Alias, on: AttachFor, id: SessionId, row: Row, op: nat, port: int)
    requires Due(s, t, Attach(alias, on, id, row, op, AttachComplete(true, port)))
    ensures
      var installed := s.(tunnels := s.tunnels[id := s.next], next := s.next + 1);
      var s' := Put(installed, t, Attach(alias, on, id, row, op, AttachRead(id in s.rows))).(
        registry := s.registry[id := port], watched := s.watched[s.next := id]);
      Good(s, s', ByTask(t))
  {
    hide Good, Due;
    var installed := s.(tunnels := s.tunnels[id := s.next], next := s.next + 1);
    var s' := Put(installed, t, Attach(alias, on, id, row, op, AttachRead(id in s.rows))).(
      registry := s.registry[id := port], watched := s.watched[s.next := id]);
    InstalledGood(s, s', t, alias, on, id, row, op, port);
  }

  lemma AttachCompleteGood(
    s: State, t: TaskId, alias: Alias, on: AttachFor, id: SessionId, row: Row, op: nat, completed: bool, port: int,
    c: Choice)
    requires Due(s, t, Attach(alias, on, id, row, op, AttachComplete(completed, port)))
    ensures Good(s, StepAttach(s, t, alias, on, id, row, op, AttachComplete(completed, port), c), ByTask(t))
  {
    hide Good, Prepared, AttachGivesUp, AttachFailed, RowsOk, TablesOk, LogJustified, RowsChange;
    hide OpenTaskOk, CloseTaskOk, ShutOk, ExitTaskOk, RetryTaskOk, RecoverTaskOk;
    var task := Attach(alias, on, id, row, op, AttachComplete(completed, port));
    AttachIsAttaching(s, t, alias, on, id, row, op, AttachComplete(completed, port));
    DueIsPrepared(s, t, task, id);
    if c.cancelled {
      AttachDropsGood(s, t, alias, on, id, row, op, AttachComplete(completed, port), c.closed);
    } else if !c.timely && !on.ByRecovery? {
      AttemptGivesUp(s, s, t, alias, on, id, row, op, None, c.(again := false));
    } else if !completed {
      AttemptGivesUp(s, s, t, alias, on, id, row, op, Some(NotEligible), c);
    } else {
      hide Due;
      InstallStepGood(s, t, alias, on, id, row, op, port, c);
    }
  }

  lemma InstallStepGood(
    s: State, t: TaskId, alias: Alias, on: AttachFor, id: SessionId, row: Row, op: nat, port: int, c: Choice)
    requires Due(s, t, Attach(alias, on, id, row, op, AttachComplete(true, port)))
    requires !c.cancelled && (c.timely || on.ByRecovery?)
    ensures Good(s, StepAttach(s, t, alias, on, id, row, op, AttachComplete(true, port), c), ByTask(t))
  {
    hide Good, Prepared, AttachFailed, RowsOk, TablesOk, LogJustified, RowsChange;
    hide OpenTaskOk, CloseTaskOk, ShutOk, ExitTaskOk, RetryTaskOk, RecoverTaskOk;
    if id in s.registry {
      hide StepAttach;
      InstallRefusedGood(s, t, alias, on, id, row, op, port, c);
      InstallRefused(s, t, alias, on, id, row, op, port, c);
    } else {
      InstallGood(s, t, alias, on, id, row, op, port);
    }
  }

  lemma InstallRefused(
    s: State, t: TaskId, alias: Alias, on: AttachFor, id: SessionId, row: Row, op: nat, port: int, c: Choice)
    requires id in s.registry && !c.cancelled && (c.timely || on.ByRecovery?)
    ensures StepAttach(s, t, alias, on, id, row, op, AttachComplete(true, port), c)
         == AttachFailed(Retain(s, id, false), t, alias, on, id, row, op, None, c)
  {
    hide AttachFailed;
  }

  lemma InstallRefusedGood(
    s: State, t: TaskId, alias: Alias, on: AttachFor, id: SessionId, row: Row, op: nat, port: int, c: Choice)
    requires Due(s, t, Attach(alias, on, id, row, op, AttachComplete(true, port))) && id in s.registry
    ensures Good(s, AttachFailed(Retain(s, id, false), t, alias, on, id, row, op, None, c), ByTask(t))
  {
    hide Good, Prepared, AttachFailed, RowsOk, TablesOk, LogJustified, RowsChange;
    hide OpenTaskOk, CloseTaskOk, ShutOk, ExitTaskOk, RetryTaskOk, RecoverTaskOk;
    AttachIsAttaching(s, t, alias, on, id, row, op, AttachComplete(true, port));
    DueIsPrepared(s, t, Attach(alias, on, id, row, op, AttachComplete(true, port)), id);
    RetainPrepared(s, s, t, id, false);
    AttemptFails(s, Retain(s, id, false), t, alias, on, id, row, op, None, c);
  }

  lemma AttachReadGood(
    s: State, t: TaskId, alias: Alias, on: AttachFor, id: SessionId, row: Row, op: nat, found: bool, c: Choice)
    requires Due(s, t, Attach(alias, on, id, row, op, AttachRead(found)))
    ensures Good(s, StepAttach(s, t, alias, on, id, row, op, AttachRead(found), c), ByTask(t))
  {
    hide Good, Prepared, AttachFailed, Attached, RowsOk, TablesOk, LogJustified, RowsChange;
    hide OpenTaskOk, CloseTaskOk, ShutOk, ExitTaskOk, RetryTaskOk, RecoverTaskOk;
    var task := Attach(alias, on, id, row, op, AttachRead(found));
    AttachIsAttaching(s, t, alias, on, id, row, op, AttachRead(found));
    DueIsPrepared(s, t, task, id);
    if c.cancelled {
      LeaveGood(s, t, alias);
    } else if !c.timely && !on.ByRecovery? {
      AttemptFails(s, s, t, alias, on, id, row, op, None, c.(again := false));
    } else {
      AttachedGood(s, t, alias, on, id, row, op, c);
    }
  }

  lemma TimerGrows(s: State, s': State, t: TaskId, alias: Alias, id: SessionId, timed: bool)
    requires RowsOk(s) && TablesOk(s) && Mine(s, t, alias) && Known(s, id, alias) && Attachable(s, id) && id in s.rows
    requires s' == s.(tasks := s'.tasks, locks := s'.locks, timers := if timed then s.timers + {id} else s.timers)
    ensures Grows(s, s', ByTask(t), id)
  {
  }

  lemma AttachedByRecoveryGood(
    s: State, t: TaskId, alias: Alias, on: AttachFor, id: SessionId, row: Row, op: nat, c: Choice)
    requires Due(s, t, Attach(alias, on, id, row, op, AttachRead(true))) && on.ByRecovery?
    ensures Good(s, Attached(s, t, alias, on, id, c), ByTask(t))
  {
    hide Good, Core, Moves, TasksOk, Grows, LockMoves, RowsOk, TablesOk, LogJustified, TodoOk, TaskOk;
    hide Mine, Known, Attachable;
    var s' := Attached(s, t, alias, on, id, c);
    ReadKnows(s, t, alias, on, id, row, op);
    LockTakenOrGivenBack(s, s, t, alias);
    TimerGrows(s, s', t, alias, id, c.timed);
    RecoverNextOk(s, s', t, on.todo);
    TurnTasksOk(s, s', t, RecoverNext(on.todo));
    GrowsIsCore(s, s', ByTask(t), id);
    OneMoves(s, s', t, RecoverNext(on.todo));
    Combine(s, s', ByTask(t));
  }

  lemma ReadKnows(s: State, t: TaskId, alias: Alias, on: AttachFor, id: SessionId, row: Row, op: nat)
    requires Due(s, t, Attach(alias, on, id, row, op, AttachRead(true)))
    ensures Mine(s, t, alias) && Known(s, id, alias) && Attachable(s, id) && id in s.rows
    ensures on.ByRecovery? ==> TodoOk(s, t, on.todo)
  {
    hide Shared, TodoOk;
  }

  lemma AttachedGood(
    s: State, t: TaskId, alias: Alias, on: AttachFor, id: SessionId, row: Row, op: nat, c: Choice)
    requires Due(s, t, Attach(alias, on, id, row, op, AttachRead(true)))
    ensures Good(s, Attached(s, t, alias, on, id, c), ByTask(t))
  {
    hide Good, Shared, TodoOk;
    if on.ByRecovery? {
      AttachedByRecoveryGood(s, t, alias, on, id, row, op, c);
    } else {
      LeaveGood(s, t, alias);
    }
  }

  // ---- retry ------------------------------------------------------------

  lemma HushPrepared(s: State, t: TaskId, id: SessionId)
    requires Shared(s) && t in s.tasks && Idle(s, t)
    ensures Prepared(s, s.(timers := s.timers - {id}, registry := s.registry - {id}), t, id)
  {
    hide RowsOk, TablesOk, LogJustified, RowsChange;
    NoRowsChange(s, ByTask(t), id);
  }

  lemma StartRetryGood(s: State, t: TaskId, alias: Alias, id: SessionId, row: Row, c: Choice)
    requires Shared(s) && t in s.tasks && Idle(s, t) && RetryOk(s, t, alias, id, row) && id !in s.opens
    ensures Good(s, StartRetry(s, t, alias, id, row, c), ByTask(t))
  {
    hide Good, Shared, Prepared, StartAttach, StartShut;
    var quiet := s.(timers := s.timers - {id}, registry := s.registry - {id});
    HushPrepared(s, t, id);
    if row.closeReason == None && !CanCloseWithoutInspection(row) {
      StartAttachGood(s, quiet, t, alias, ByRetry, id, row, c);
    } else {
      StartShutGood(s, quiet, t, alias, Retrying, id);
    }
  }

  lemma RetryReadGood(s: State, t: TaskId, alias: Alias, seen: Option<Found>, c: Choice)
    requires Inv(s) && Due(s, t, RetryRead(alias, seen))
    ensures Good(s, StepRetryRead(s, t, alias, seen, c), ByTask(t))
  {
    hide Good, StartRetry, RowsOk, TablesOk, LogJustified, RowsChange, RowGoes, Shrinks, KeepsLog;
    hide OpenTaskOk, CloseTaskOk, ShutOk, ExitTaskOk, AttachOk, RecoverTaskOk;
    var s' := StepRetryRead(s, t, alias, seen, c);
    if c.cancelled || seen.None? || seen.value.row.state != Error {
      LeaveGood(s, t, alias);
    } else {
      var Found(id, row) := seen.value;
      if id in s.starts {
        NoRowsChange(s, ByTask(t), id);
        TrimsShrinks(s, s', ByTask(t), id);
        Settles(s, s', t, RetrySettle(alias, id, row), id);
      } else {
        NotRunning(s, t, alias, id);
        StartRetryGood(s, t, alias, id, row, c);
      }
    }
  }

  lemma RetrySettleGood(s: State, t: TaskId, alias: Alias, id: SessionId, row: Row, c: Choice)
    requires Due(s, t, RetrySettle(alias, id, row))
    ensures Good(s, StepRetrySettle(s, t, alias, id, row, c), ByTask(t))
  {
    hide Good, RowsOk, TablesOk, StartRetry;
    hide OpenTaskOk, CloseTaskOk, ShutOk, ExitTaskOk, AttachOk, RecoverTaskOk;
    if id in s.opens {
      Waits(s, t, RetrySettle(alias, id, row));
    } else {
      StartRetryGood(s, t, alias, id, row, c);
    }
  }

  lemma RetrySleepGood(s: State, t: TaskId, alias: Alias, id: SessionId, row: Row, c: Choice)
    requires Due(s, t, RetrySleep(alias, id, row))
    ensures Good(s, StepRetrySleep(s, t, alias, id, row, c), ByTask(t))
  {
    hide Good, RowsOk, TablesOk, StartAttach;
    hide OpenTaskOk, CloseTaskOk, ShutOk, ExitTaskOk, AttachOk, RecoverTaskOk;
    if c.cancelled {
      LeaveGood(s, t, alias);
    } else {
      DueIsPrepared(s, t, RetrySleep(alias, id, row), id);
      StartAttachGood(s, s, t, alias, ByRetry, id, row, c);
    }
  }

  lemma RetryCheckGood(s: State, t: TaskId, alias: Alias, gone: bool, c: Choice)
    requires Due(s, t, RetryCheck(alias, gone))
    ensures Good(s, StepRetryCheck(s, t, alias, gone, c), ByTask(t))
  {
    hide CloseTaskOk, ExitTaskOk, RecoverTaskOk, ShutOk, AttachOk;
    hide Good, RowsOk, TablesOk, LogJustified, RowsChange, RowGoes, Shrinks, KeepsLog;
    if c.cancelled || !gone {
      LeaveGood(s, t, alias);
    } else {
      NoRowsChange(s, ByTask(t), 0);
      TrimsShrinks(s, StepRetryCheck(s, t, alias, gone, c), ByTask(t), 0);
      Turns(s, StepRetryCheck(s, t, alias, gone, c), t, OpenLock(alias), 0);
    }
  }

  // ---- on_tunnel_exit ---------------------------------------------------

  lemma ExitOkElsewhere(s: State, s': State, t: TaskId, task: Task, next: Task)
    requires IsExit(task) && IsExit(next) && ExitTaskOk(s, t, task) && next.alias == task.alias && next.id == task.id
    requires s'.rows == s.rows && s'.names == s.names && s'.unacquired == s.unacquired && s'.opens == s.opens
    requires s'.backlog == s.backlog
    requires Mine(s', t, next.alias) || next.ExitLock? || next.ExitWait? || next.ExitGiveUp?
    requires next.ExitFresh? && next.latest.Some? ==> Coherent(s, next.id, next.latest.value)
    ensures ExitTaskOk(s', t, next)
  {
  }

  /** Waiting for, or taking, the alias lock. */
  lemma ExitTakesGood(s: State, t: TaskId, task: Task, alias: Alias, next: Task)
    requires Due(s, t, task) && IsExit(task) && IsExit(next) && alias == task.alias && alias !in s.locks
    requires next.alias == alias && next.id == task.id
    requires next.ExitFresh? && next.latest.Some? ==> Coherent(s, next.id, next.latest.value)
    ensures Good(s, Take(s, t, alias, next), ByTask(t))
  {
    hide Good, Due, TaskOk, Shared, Idle, Take, Coherent;
    DueIsIdle(s, t, task);
    ExitTaken(s, t, task, alias, next);
    TakeGood(s, t, alias, next);
  }

  lemma ExitTaken(s: State, t: TaskId, task: Task, alias: Alias, next: Task)
    requires Due(s, t, task) && IsExit(task) && IsExit(next) && alias == task.alias
    requires next.alias == alias && next.id == task.id
    requires next.ExitFresh? && next.latest.Some? ==> Coherent(s, next.id, next.latest.value)
    ensures TaskOk(Take(s, t, alias, next), t, next)
  {
    hide OpenTaskOk, CloseTaskOk, ShutOk, RetryTaskOk, AttachOk, RecoverTaskOk, ExitTaskOk, Shared, Coherent;
    ExitOkElsewhere(s, Take(s, t, alias, next), t, task, next);
  }

  /** Going on without the lock, giving it back if it was held. */
  lemma ExitGoesOnGood(s: State, t: TaskId, task: Task, next: Task)
    requires Due(s, t, task) && IsExit(task) && IsExit(next)
    requires next == ExitLock(task.alias, task.id, if next.ExitLock? then next.tunnel else 0)
             || next == ExitWait(task.alias, task.id) || next == ExitGiveUp(task.alias, task.id)
    ensures Good(s, Put(s, t, next), ByTask(t))
    ensures Mine(s, t, task.alias) ==> Good(s, Put(Unlock(s, task.alias), t, next), ByTask(t))
  {
    hide Good, Shared, RowsChange, RowGoes, Shrinks, KeepsLog, TaskOk, Idle;
    DueIsIdle(s, t, task);
    ExitNextOk(s, Put(s, t, next), t, task, next);
    ExitKeepsGood(s, Put(s, t, next), t, next, task.id);
    if Mine(s, t, task.alias) {
      var s' := Put(Unlock(s, task.alias), t, next);
      ExitNextOk(s, s', t, task, next);
      ExitKeepsGood(s, s', t, next, task.id);
    }
  }

  lemma ExitNextOk(s: State, s': State, t: TaskId, task: Task, next: Task)
    requires Due(s, t, task) && IsExit(task) && IsExit(next) && next.alias == task.alias && next.id == task.id
    requires next.ExitLock? || next.ExitWait? || next.ExitGiveUp?
             || ((next.ExitClosing? || next.ExitMark?) && Mine(s', t, next.alias))
    requires s'.rows == s.rows && s'.names == s.names && s'.unacquired == s.unacquired && s'.opens == s.opens
    requires s'.backlog == s.backlog
    ensures TaskOk(s', t, next)
  {
    hide Shared, OpenTaskOk, CloseTaskOk, ShutOk, RetryTaskOk, AttachOk, RecoverTaskOk, ExitTaskOk;
    ExitOkElsewhere(s, s', t, task, next);
  }

  /** Tunnels, locks, the published port and the task change, and nothing else. */
  lemma ExitKeepsGood(s: State, s': State, t: TaskId, next: Task, id: SessionId)
    requires Shared(s) && t in s.tasks && Idle(s, t)
    requires s' == s.(tunnels := s'.tunnels, registry := s'.registry, locks := s'.locks, tasks := s.tasks[t := next])
    requires s'.registry == s.registry || s'.registry == s.registry - {id}
    requires LockMoves(s, s'.locks, t) && TaskOk(s', t, next)
    ensures Good(s, s', ByTask(t))
  {
    hide Good, RowsOk, TablesOk, LogJustified, RowsChange, RowGoes, Shrinks, KeepsLog, TaskOk, Idle, LockMoves;
    NoRowsChange(s, ByTask(t), id);
    TrimsShrinks(s, s', ByTask(t), id);
    Turns(s, s', t, next, id);
  }

  lemma ExitReadGood(s: State, t: TaskId, alias: Alias, id: SessionId, tunnel: nat, found: bool, c: Choice)
    requires Due(s, t, ExitRead(alias, id, tunnel, found))
    ensures Good(s, StepExitRead(s, t, alias, id, tunnel, found, c), ByTask(t))
  {
    hide Good, Shared, TaskOk;
    if c.cancelled || !found {
      DoneGood(s, t);
    } else {
      ExitGoesOnGood(s, t, ExitRead(alias, id, tunnel, found), ExitLock(alias, id, tunnel));
    }
  }

  lemma ExitLockGood(s: State, t: TaskId, alias: Alias, id: SessionId, tunnel: nat, c: Choice)
    requires Due(s, t, ExitLock(alias, id, tunnel))
    ensures Good(s, StepExitLock(s, t, alias, id, tunnel, c), ByTask(t))
  {
    hide Good, Shared, TaskOk;
    var task := ExitLock(alias, id, tunnel);
    if c.cancelled {
      DoneGood(s, t);
    } else if alias in s.locks {
      Waits(s, t, task);
    } else {
      ExitTakesGood(s, t, task, alias, ExitCheck(alias, id, tunnel, Lookup(s.rows, id)));
    }
  }

  lemma ExitCheckGood(
    s: State, t: TaskId, alias: Alias, id: SessionId, tunnel: nat, latest: Option<Row>, c: Choice)
    requires Due(s, t, ExitCheck(alias, id, tunnel, latest))
    ensures Good(s, StepExitCheck(s, t, alias, id, tunnel, latest, c), ByTask(t))
  {
    hide Good, Shared, Idle;
    ExitHolds(s, t, ExitCheck(alias, id, tunnel, latest));
    DueIsIdle(s, t, ExitCheck(alias, id, tunnel, latest));
    hide TaskOk;
    if c.cancelled || Withdrawn(latest) || id !in s.tunnels || s.tunnels[id] != tunnel {
      LeaveGood(s, t, alias);
    } else {
      var s' := StepExitCheck(s, t, alias, id, tunnel, latest, c);
      ExitNextOk(s, s', t, ExitCheck(alias, id, tunnel, latest), ExitClosing(alias, id, tunnel));
      ExitKeepsGood(s, s', t, ExitClosing(alias, id, tunnel), id);
    }
  }

  lemma ExitClosingGood(s: State, t: TaskId, alias: Alias, id: SessionId, tunnel: nat, c: Choice)
    requires Due(s, t, ExitClosing(alias, id, tunnel))
    ensures Good(s, StepExitClosing(s, t, alias, id, tunnel, c), ByTask(t))
  {
    hide Good, Shared, Idle;
    ExitHolds(s, t, ExitClosing(alias, id, tunnel));
    DueIsIdle(s, t, ExitClosing(alias, id, tunnel));
    hide TaskOk;
    if c.cancelled {
      LeaveGood(s, t, alias);
    } else {
      var s' := StepExitClosing(s, t, alias, id, tunnel, c);
      ExitNextOk(s, s', t, ExitClosing(alias, id, tunnel), ExitWait(alias, id));
      ExitKeepsGood(s, s', t, ExitWait(alias, id), id);
    }
  }

  lemma ExitHolds(s: State, t: TaskId, task: Task)
    requires Due(s, t, task) && (task.ExitCheck? || task.ExitClosing?)
    ensures Mine(s, t, task.alias)
  {
    hide Shared;
  }

  lemma ExitWaitGood(s: State, t: TaskId, alias: Alias, id: SessionId, c: Choice)
    requires Due(s, t, ExitWait(alias, id))
    ensures Good(s, StepExitWait(s, t, alias, id, c), ByTask(t))
  {
    hide Good, Shared, TaskOk;
    var task := ExitWait(alias, id);
    if c.cancelled {
      DoneGood(s, t);
    } else if alias in s.locks {
      if c.again { Waits(s, t, task); } else { ExitGoesOnGood(s, t, task, ExitGiveUp(alias, id)); }
    } else {
      ExitTakesGood(s, t, task, alias, ExitFresh(alias, id, Lookup(s.rows, id)));
    }
  }

  lemma ExitFreshGood(s: State, t: TaskId, alias: Alias, id: SessionId, latest: Option<Row>, c: Choice)
    requires Due(s, t, ExitFresh(alias, id, latest))
    ensures Good(s, StepExitFresh(s, t, alias, id, latest, c), ByTask(t))
  {
    hide Good, RowsOk, TablesOk, LogJustified, StartAttach;
    hide OpenTaskOk, CloseTaskOk, ShutOk, RetryTaskOk, AttachOk, RecoverTaskOk;
    var task := ExitFresh(alias, id, latest);
    if c.cancelled {
      LeaveGood(s, t, alias);
    } else if Withdrawn(latest) {
      ExitGoesOnGood(s, t, task, ExitGiveUp(alias, id));
    } else {
      DueIsPrepared(s, t, task, id);
      StartAttachGood(s, s, t, alias, ByExit, id, latest.value, c);
    }
  }

  lemma ExitGiveUpGood(s: State, t: TaskId, alias: Alias, id: SessionId, c: Choice)
    requires Due(s, t, ExitGiveUp(alias, id))
    ensures Good(s, StepExitGiveUp(s, t, alias, id, c), ByTask(t))
  {
    hide Good, Shared, TaskOk;
    var task := ExitGiveUp(alias, id);
    if c.cancelled {
      DoneGood(s, t);
    } else if alias in s.locks {
      Waits(s, t, task);
    } else {
      ExitTakesGood(s, t, task, alias, ExitFinal(alias, id, Lookup(s.rows, id)));
    }
  }

  lemma ExitFinalGood(s: State, t: TaskId, alias: Alias, id: SessionId, latest: Option<Row>, c: Choice)
    requires Due(s, t, ExitFinal(alias, id, latest))
    ensures Good(s, StepExitFinal(s, t, alias, id, latest, c), ByTask(t))
  {
    hide Good, RowsOk, TablesOk, LogJustified, RowsChange, RowGoes, Shrinks, KeepsLog;
    hide OpenTaskOk, CloseTaskOk, ShutOk, RetryTaskOk, AttachOk, RecoverTaskOk;
    if c.cancelled || Withdrawn(latest) {
      LeaveGood(s, t, alias);
    } else {
      AttachPatches(s, ByTask(t), id, MarkError(s.rows, id, TunnelLost), TunnelLost);
      TrimsShrinks(s, StepExitFinal(s, t, alias, id, latest, c), ByTask(t), id);
      Turns(s, StepExitFinal(s, t, alias, id, latest, c), t, ExitMark(alias, id), id);
    }
  }

  // ---- recover_all ------------------------------------------------------

  lemma RecoverNextGood(s: State, t: TaskId, todo: seq<Found>, c: Choice)
    requires Due(s, t, RecoverNext(todo))
    ensures Good(s, StepRecoverNext(s, t, todo, c), ByTask(t))
  {
    hide Good, StartAttach, StartShut, RowsOk, LogJustified;
    hide OpenTaskOk, CloseTaskOk, ShutOk, RetryTaskOk, AttachOk, ExitTaskOk;
    if todo == [] {
      RecoveryEndsGood(s, t);
    } else if todo[0].row.alias in s.locks {
      Waits(s, t, RecoverNext(todo));
    } else {
      RecoverTakesUpGood(s, t, todo, c);
    }
  }

  lemma RecoveryEndsTables(s: State, s': State, t: TaskId)
    requires TablesOk(s) && s.backlog == {} && s.recoverer == Some(t)
    requires s' == s.(tasks := s'.tasks, recoverer := None)
    ensures TablesOk(s') && KeepsOpens(s, s'.opens, ByTask(t)) && KeepsOwned(s, s'.owned)
    ensures KeepsQuiet(s, s'.registry, s'.counts, s'.timers, ByTask(t))
    ensures KeepsRecovery(s, s'.recoverer, s'.backlog, ByTask(t)) && KeepsUnacquired(s, s'.unacquired, ByTask(t))
  {
  }

  lemma RecoveryEndsGood(s: State, t: TaskId)
    requires Due(s, t, RecoverNext([]))
    ensures Good(s, Done(s, t).(recoverer := None), ByTask(t))
  {
    hide RowsNamed, RowsReserved, OneRowPerAlias, CloseIntent, UnacquiredUntouched, TablesOk, LogJustified, RowsChange;
    hide KeepsRows, RowsRecorded, KeepsOpens, KeepsOwned, KeepsQuiet, KeepsRecovery, KeepsUnacquired;
    hide OpenTaskOk, CloseTaskOk, ShutOk, RetryTaskOk, AttachOk, ExitTaskOk, OpenOk;
    var s' := Done(s, t).(recoverer := None);
    assert s.backlog == {};
    RecoveryEndsTables(s, s', t);
    NoRowsChange(s, ByTask(t), 0);
    RowsChangeOk(s, s.rows, s.owned, ByTask(t), 0);
    SameKeysRecorded(s.rows, s.rows, s.log, s.log);
    assert TasksOk(s, s', ByTask(t));
  }

  ghost function TakeUp(s: State, t: TaskId, todo: seq<Found>): State
    requires todo != []
  {
    s.(locks := s.locks[todo[0].row.alias := t], backlog := s.backlog - {todo[0].id})
  }

  lemma TakeUpOk(s: State, t: TaskId, todo: seq<Found>)
    requires Due(s, t, RecoverNext(todo)) && todo != [] && todo[0].row.alias !in s.locks
    ensures var q := TakeUp(s, t, todo); var Found(id, row) := todo[0];
      && Prepared(s, q, t, id) && LockMoves(s, q.locks, t)
      && TodoOk(q, t, todo[1..]) && Quiet(q, id) && Mine(q, t, row.alias)
      && Known(s, id, row.alias) && id !in s.opens && id !in s.unacquired && Coherent(s, id, row)
  {
    hide RowsOk, LogJustified, RowsChange, Shrinks, Prepared;
    TakeUpPrepared(s, t, todo);
    var q, rest := TakeUp(s, t, todo), todo[1..];
    forall id | id in q.backlog ensures Listed(rest, id) {
      var i :| 0 <= i < |todo| && todo[i].id == id;
      assert rest[i - 1].id == id;
    }
  }

  lemma TakeUpPrepared(s: State, t: TaskId, todo: seq<Found>)
    requires Due(s, t, RecoverNext(todo)) && todo != [] && todo[0].row.alias !in s.locks
    ensures Prepared(s, TakeUp(s, t, todo), t, todo[0].id) && LockMoves(s, TakeUp(s, t, todo).locks, t)
  {
    hide RowsOk, TablesOk, LogJustified, RowsChange, RowGoes;
    NoRowsChange(s, ByTask(t), todo[0].id);
  }

  lemma RecoverTakesUpGood(s: State, t: TaskId, todo: seq<Found>, c: Choice)
    requires Due(s, t, RecoverNext(todo)) && todo != [] && todo[0].row.alias !in s.locks
    ensures Good(s, StepRecoverNext(s, t, todo, c), ByTask(t))
  {
    hide Good, Prepared, StartAttach, StartShut, RowsOk, TablesOk, LogJustified, TodoOk;
    var q := TakeUp(s, t, todo);
    var Found(id, row) := todo[0];
    TakeUpOk(s, t, todo);
    if CanReattach(row) {
      StartAttachGood(s, q, t, row.alias, ByRecovery(todo[1..]), id, row, c);
    } else if row.state == Stopping {
      StartShutGood(s, q, t, row.alias, Recovering(todo[1..]), id);
    } else {
      TakesUpInspect(s, t, todo);
    }
  }

  lemma TakesUpInspect(s: State, t: TaskId, todo: seq<Found>)
    requires Due(s, t, RecoverNext(todo)) && todo != [] && todo[0].row.alias !in s.locks
    ensures var q := TakeUp(s, t, todo);
      var task := RecoverInspect(todo[0].row.alias, todo[0].id, q.next, todo[1..]);
      Good(s, Put(q, t, task).(next := q.next + 1), ByTask(t))
  {
    hide Good, LockMoves, Shared, RowsChange, RowGoes, Shrinks, KeepsLog, TaskOk, TodoOk, Quiet, Coherent;
    var q := TakeUp(s, t, todo);
    TakeUpOk(s, t, todo);
    var task := RecoverInspect(todo[0].row.alias, todo[0].id, q.next, todo[1..]);
    var s' := Put(q, t, task).(next := q.next + 1);
    InspectionOk(s, q, s', t, task);
    ShrinksFurther(s, q, s', ByTask(t), todo[0].id);
    Turns(s, s', t, task, todo[0].id);
  }

  lemma InspectionOk(s: State, q: State, s': State, t: TaskId, task: Task)
    requires task.RecoverInspect? && TodoOk(q, t, task.todo) && Quiet(q, task.id) && Mine(q, t, task.alias)
    requires Known(s, task.id, task.alias) && Attachable(q, task.id) && task.id !in s.opens
    requires q.names == s.names && q.opens == s.opens
    requires SameTodo(q, s') && s'.rows == q.rows && s'.locks == q.locks && s'.opens == q.opens
    requires s'.unacquired == q.unacquired && s'.registry == q.registry
    requires s'.counts == q.counts && s'.timers == q.timers
    ensures TaskOk(s', t, task)
  {
    hide TodoOk;
    TodoWhateverElse(q, t, task.todo);
  }

  /** The inspection is over and the row stays; a chain that did not close is kept. */
  lemma InspectionEndsGood(
    s: State, q: State, t: TaskId, alias: Alias, id: SessionId, op: nat, todo: seq<Found>, closed: bool)
    requires Due(s, t, RecoverInspect(alias, id, op, todo)) && Prepared(s, q, t, id)
    requires q == s.(log := q.log)
    ensures Good(s, Put(Unlock(Retain(q, id, closed), alias), t, RecoverNext(todo)), ByTask(t))
  {
    hide Good, Prepared, TodoOk, Shared;
    hide OpenTaskOk, CloseTaskOk, ShutOk, RetryTaskOk, AttachOk, ExitTaskOk;
    TodoWhateverElse(s, t, todo);
    RetainPrepared(s, q, t, id, closed);
    RecoveryGoesOn(s, Retain(q, id, closed), t, alias, id, todo);
  }

  lemma InspectionDeletesGood(s: State, q: State, t: TaskId, alias: Alias, id: SessionId, op: nat, todo: seq<Found>)
    requires Due(s, t, RecoverInspect(alias, id, op, todo)) && Prepared(s, q, t, id)
    requires q == s.(log := q.log) && Justified(q.log, op, id)
    ensures
      var s' := Put(q, t, RecoverDelete(alias, id, todo)).(
        rows := Delete(q.rows, id), log := q.log + [Deleted(op, id, false)]);
      Good(s, s', ByTask(t))
  {
    hide Good, Prepared, TodoOk, Shared, Justified;
    hide OpenTaskOk, CloseTaskOk, ShutOk, RetryTaskOk, AttachOk, ExitTaskOk;
    TodoWhateverElse(s, t, todo);
    RecoveryDeletes(s, q, t, alias, id, op, todo);
  }

  lemma RecoverInspectGood(
    s: State, t: TaskId, alias: Alias, id: SessionId, op: nat, todo: seq<Found>, c: Choice)
    requires Due(s, t, RecoverInspect(alias, id, op, todo))
    ensures Good(s, StepRecoverInspect(s, t, alias, id, op, todo, c), ByTask(t))
  {
    hide Good, Prepared, Justified, Due, Retain, Unlock, Put, Delete;
    var task := RecoverInspect(alias, id, op, todo);
    DueIsPrepared(s, t, task, id);
    if !c.connected || c.inspection.running {
      InspectionEndsGood(s, s, t, alias, id, op, todo, c.closed);
    } else {
      AbsenceLogged(s, t, task, id, op);
      var asked := s.(log := s.log + [Confirmed(op, id), Removing(op, id)]);
      if c.removed && c.closed {
        InspectionDeletesGood(s, asked, t, alias, id, op, todo);
      } else {
        InspectionEndsGood(s, asked, t, alias, id, op, todo, c.closed);
      }
    }
  }

  lemma RecoverReleaseGood(s: State, t: TaskId, alias: Alias, id: SessionId, todo: seq<Found>)
    requires Due(s, t, RecoverDelete(alias, id, todo))
    ensures Good(s, StepRecoverDelete(s, t, alias, id, todo), ByTask(t))
  {
    hide Good, Prepared, RowsOk, TablesOk, RowGoes;
    hide OpenTaskOk, CloseTaskOk, ShutOk, RetryTaskOk, AttachOk, ExitTaskOk;
    var q := s.(owned := s.owned - {id});
    ReleasePrepared(s, t, RecoverDelete(alias, id, todo), id);
    TodoWhateverElse(s, t, todo);
    RecoveryGoesOn(s, q, t, alias, id, todo);
  }

  lemma ReleasePrepared(s: State, t: TaskId, task: Task, id: SessionId)
    requires Due(s, t, task) && task.RecoverDelete? && task.id == id
    ensures Prepared(s, s.(owned := s.owned - {id}), t, id)
  {
    hide RowsOk, TablesOk, RowsChange, RowGoes, LogJustified;
    hide OpenTaskOk, CloseTaskOk, ShutOk, RetryTaskOk, AttachOk, ExitTaskOk;
    NoRowsChange(s, ByTask(t), id);
  }

  lemma RecoverMarkGood(s: State, t: TaskId, alias: Alias, id: SessionId, todo: seq<Found>)
    requires Due(s, t, RecoverMark(alias, id, todo))
    ensures Good(s, Put(Unlock(s, alias), t, RecoverNext(todo)), ByTask(t))
  {
    hide Good, Prepared, RowsOk, TablesOk, RowGoes;
    hide OpenTaskOk, CloseTaskOk, ShutOk, RetryTaskOk, AttachOk, ExitTaskOk;
    DueIsPrepared(s, t, RecoverMark(alias, id, todo), id);
    RecoveryGoesOn(s, s, t, alias, id, todo);
  }

  lemma RecoverClearGood(s: State, t: TaskId, alias: Alias, id: SessionId, todo: seq<Found>)
    requires Due(s, t, RecoverClear(alias, id, todo))
    ensures Good(s, StepRecoverClear(s, t, alias, id, todo), ByTask(t))
  {
    hide Good, TodoOk, RowsOk, TablesOk, LogJustified, RowsChange, RowGoes, Shrinks, KeepsLog;
    hide OpenTaskOk, CloseTaskOk, ShutOk, RetryTaskOk, AttachOk, ExitTaskOk;
    var s' := StepRecoverClear(s, t, alias, id, todo);
    AttachPatches(s, ByTask(t), id, s'.rows, RecoveryFailed);
    TrimsShrinks(s, s', ByTask(t), id);
    TodoSurvivesPatch(s, t, todo, id);
    Turns(s, s', t, RecoverMark(alias, id, todo), id);
  }
}
