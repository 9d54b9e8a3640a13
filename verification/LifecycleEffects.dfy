/** What one step adds to the log, which numbered operations it begins and continues, and which error codes it
    writes. */
module LifecycleEffects {
  import opened Wrappers
  import opened Records
  import opened Database
  import opened Lifecycle
  import opened LifecycleInvariant

  // ---- the log -----------------------------------------------------------

  /** What a turn of _do_close adds. */
  ghost function ShutActs(caller: ShutFor, id: SessionId, op: nat, at: ShutStep, c: Choice): seq<Act> {
    match at
    case ShutRemote(row, _) =>
      if CanCloseWithoutInspection(row) then [PreRemote(op, id)]
      else if c.connected && (c.stopped || (row.identity.pid == None && !c.inspection.running)) then
        [Confirmed(op, id), Removing(op, id)]
      else []
    case ShutCleared(absent, failed) =>
      if caller.Forced? || (absent && !failed) then [Deleted(op, id, caller.Forced?)] else []
    case _ => []
  }

  /** What a turn of a reattachment adds: only one that looks and finds nothing running adds anything. */
  ghost function AttachActs(on: AttachFor, id: SessionId, row: Row, op: nat, step: AttachStep, c: Choice): seq<Act> {
    if step != AttachBegin(true) || c.cancelled || !c.connected || c.inspection.running then []
    else
      [Confirmed(op, id), Removing(op, id)]
        + (if on.ByRecovery? && (row.state == Starting || row.state == Error) && c.removed && c.closed then
             [Deleted(op, id, false)]
           else [])
  }

  ghost function TaskActs(q: State, task: Task, c: Choice): seq<Act> {
    match task
    case OpenInsert(_, id) => if !c.cancelled && Full(q) then [RolledBack(id)] else []
    case Shut(_, caller, id, op, at) => if c.cancelled then [] else ShutActs(caller, id, op, at, c)
    case Attach(_, on, id, row, op, step) => AttachActs(on, id, row, op, step, c)
    case RecoverInspect(_, id, op, _) =>
      if !c.connected || c.inspection.running then []
      else [Confirmed(op, id), Removing(op, id)] + (if c.removed && c.closed then [Deleted(op, id, false)] else [])
    case _ => []
  }

  ghost function Acts(q: State, e: Event): seq<Act> {
    if e.Turn? && e.task in q.tasks then TaskActs(q, q.tasks[e.task], e.answers) else []
  }

  // ---- operations ----------------------------------------------------------

  /** The number of the closing or reattaching operation a task runs. */
  ghost function Op(task: Task): Option<nat> {
    match task
    case Shut(_, _, _, op, _) => Some(op)
    case Attach(_, _, _, _, op, _) => Some(op)
    case RecoverInspect(_, _, op, _) => Some(op)
    case _ => None
  }

  /** A closing or reattaching operation that has just begun, under a new number. */
  ghost predicate Begins(q: State, next: nat, task: Task) {
    && Op(task).Some? && q.next <= Op(task).value < next
    && (task.Shut? ==>
          task.at.ShutStart? || (task.at.ShutRead? && task.at.latest == Lookup(q.rows, task.id)))
    && (task.Attach? ==> task.step.AttachBegin?)
  }

  /** The task carries out a forced close. */
  ghost predicate Forces(task: Task) {
    (IsClose(task) && task.force) || (task.Shut? && task.caller.Forced?)
  }

  /** What the acting task may go on with, or spawn, when it does not run _do_close. */
  ghost predicate Follows(q: State, next: nat, before: Option<Task>, task: Task) {
    && (Forces(task) ==> before.Some? && Forces(before.value) && before.value.alias == task.alias)
    && GoesOn(q, next, before, task)
  }

  ghost predicate GoesOn(q: State, next: nat, before: Option<Task>, task: Task) {
    || (Op(task).None? && (task.OpenInsert? ==> task.id >= q.next))
    || Begins(q, next, task)
    || (before.Some? && before.value == task)
    || (before.Some? && before.value.Attach? && task.Attach? && task.op == before.value.op)
  }

  predicate PreRemoteCode(row: Row) {
    row.errorCode.Some? && IsPreRemoteFailure(row.errorCode.value)
  }

  /** No row gets one of the four codes. */
  ghost predicate CodesKept(rows: Table, rows': Table) {
    forall id :: id in rows' && PreRemoteCode(rows'[id]) ==> id in rows && rows[id].errorCode == rows'[id].errorCode
  }

  /** No row becomes READY. */
  ghost predicate NoneReady(rows: Table, rows': Table) {
    forall id :: id in rows' && rows'[id].state == Ready ==> id in rows && rows[id].state == Ready
  }

  /** Only the acting task goes on; the one of a close may end and spawn another. */
  ghost predicate TasksFollow(q: State, tasks: map<TaskId, Task>, next: nat, t: TaskId) {
    forall u :: u in tasks ==>
      || (u in q.tasks && u != t && tasks[u] == q.tasks[u])
      || (u == t && Follows(q, next, if t in q.tasks then Some(q.tasks[t]) else None, tasks[u]))
      || (u == q.next && u !in q.tasks && t !in tasks && t in q.tasks && IsClose(q.tasks[t])
          && Follows(q, next, None, tasks[u]))
  }

  ghost predicate Effect(q: State, q': State, t: TaskId, acts: seq<Act>) {
    && q'.next >= q.next && q'.launched == q.launched && q'.opens == q.opens
    && q'.log == q.log + acts
    && CodesKept(q.rows, q'.rows) && NoneReady(q.rows, q'.rows)
    && TasksFollow(q, q'.tasks, q'.next, t)
  }

  // ---- small updates -------------------------------------------------------

  /** All but tasks is as an effect leaves it. */
  ghost predicate Steady(q: State, q': State, acts: seq<Act>) {
    && q'.next >= q.next && q'.launched == q.launched && q'.opens == q.opens
    && q'.log == q.log + acts && CodesKept(q.rows, q'.rows) && NoneReady(q.rows, q'.rows)
  }

  lemma PutEffect(q: State, q': State, t: TaskId, task: Task, acts: seq<Act>)
    requires Steady(q, q', acts) && q'.tasks == q.tasks[t := task]
    requires Follows(q, q'.next, if t in q.tasks then Some(q.tasks[t]) else None, task)
    ensures Effect(q, q', t, acts)
  {
    hide Follows, CodesKept, NoneReady;
  }

  lemma DoneEffect(q: State, q': State, t: TaskId, acts: seq<Act>)
    requires Steady(q, q', acts) && q'.tasks == q.tasks - {t}
    ensures Effect(q, q', t, acts)
  {
    hide Follows, CodesKept, NoneReady;
  }

  lemma SpawnEffect(q: State, q': State, t: TaskId, task: Task, acts: seq<Act>)
    requires TasksFresh(q.tasks, q.next) && t in q.tasks && IsClose(q.tasks[t])
    requires Steady(q, q', acts) && q'.tasks == (q.tasks - {t})[q.next := task] && Follows(q, q'.next, None, task)
    ensures Effect(q, q', t, acts)
  {
    hide Follows, CodesKept, NoneReady;
  }

  lemma WaitEffect(q: State, q': State, t: TaskId, acts: seq<Act>)
    requires t in q.tasks && Steady(q, q', acts) && q'.tasks == q.tasks
    ensures Effect(q, q', t, acts)
  {
    hide CodesKept, NoneReady;
  }

  // ---- the statements ------------------------------------------------------

  lemma StatementsKeepCodes(rows: Table, id: SessionId, alias: Alias, reason: CloseReason)
    ensures CodesKept(rows, rows) && NoneReady(rows, rows)
    ensures CodesKept(rows, Delete(rows, id)) && NoneReady(rows, Delete(rows, id))
    ensures CodesKept(rows, Insert(rows, id, alias)) && NoneReady(rows, Insert(rows, id, alias))
    ensures CodesKept(rows, BeginRecovery(rows, id)) && NoneReady(rows, BeginRecovery(rows, id))
    ensures CodesKept(rows, MarkStopping(rows, id, reason)) && NoneReady(rows, MarkStopping(rows, id, reason))
    ensures CodesKept(rows, ClearTunnelIdentity(rows, id)) && NoneReady(rows, ClearTunnelIdentity(rows, id))
    ensures CodesKept(rows, ClearRemoteIdentity(rows, id)) && NoneReady(rows, ClearRemoteIdentity(rows, id))
    ensures CodesKept(rows, MarkError(rows, id, StopFailed)) && NoneReady(rows, MarkError(rows, id, StopFailed))
    ensures CodesKept(rows, MarkError(rows, id, RecoveryFailed)) && NoneReady(rows, MarkError(rows, id, RecoveryFailed))
    ensures CodesKept(rows, MarkError(rows, id, TunnelLost)) && NoneReady(rows, MarkError(rows, id, TunnelLost))
  {
    hide CodesKept, NoneReady, Delete, Insert, BeginRecovery, MarkStopping, ClearTunnelIdentity, ClearRemoteIdentity;
    hide MarkError;
    TableKeepsCodes(rows, id, alias, reason);
    ClearingKeepsCodes(rows, id);
    ErrorsKeepCodes(rows, id);
  }

  lemma TableKeepsCodes(rows: Table, id: SessionId, alias: Alias, reason: CloseReason)
    ensures CodesKept(rows, rows) && NoneReady(rows, rows)
    ensures CodesKept(rows, Delete(rows, id)) && NoneReady(rows, Delete(rows, id))
    ensures CodesKept(rows, Insert(rows, id, alias)) && NoneReady(rows, Insert(rows, id, alias))
    ensures CodesKept(rows, BeginRecovery(rows, id)) && NoneReady(rows, BeginRecovery(rows, id))
    ensures CodesKept(rows, MarkStopping(rows, id, reason)) && NoneReady(rows, MarkStopping(rows, id, reason))
  {
  }

  lemma ClearingKeepsCodes(rows: Table, id: SessionId)
    ensures CodesKept(rows, ClearTunnelIdentity(rows, id)) && NoneReady(rows, ClearTunnelIdentity(rows, id))
    ensures CodesKept(rows, ClearRemoteIdentity(rows, id)) && NoneReady(rows, ClearRemoteIdentity(rows, id))
  {
  }

  lemma ErrorsKeepCodes(rows: Table, id: SessionId)
    ensures CodesKept(rows, MarkError(rows, id, StopFailed)) && NoneReady(rows, MarkError(rows, id, StopFailed))
    ensures CodesKept(rows, MarkError(rows, id, RecoveryFailed)) && NoneReady(rows, MarkError(rows, id, RecoveryFailed))
    ensures CodesKept(rows, MarkError(rows, id, TunnelLost)) && NoneReady(rows, MarkError(rows, id, TunnelLost))
  {
  }

  lemma CompletingKeepsCodes(rows: Table, id: SessionId, found: RuntimeIdentity, port: int)
    ensures CodesKept(rows, CompleteRecovery(rows, id, found, port))
  {
  }

  // ---- open, close and retry up to their operation ---------------------------

  /** A step that goes on with `task`, ends or waits, as the case may be. */
  lemma TurnEffect(q: State, q': State, t: TaskId, task: Task, acts: seq<Act>)
    requires t in q.tasks && Follows(q, q'.next, Some(q.tasks[t]), task)
    requires Steady(q, q', acts)
    requires q'.tasks == q.tasks[t := task] || q'.tasks == q.tasks - {t} || q'.tasks == q.tasks
    ensures Effect(q, q', t, acts)
  {
    hide Steady, Effect, CodesKept, NoneReady, Follows;
    if q'.tasks == q.tasks[t := task] { PutEffect(q, q', t, task, acts); }
    else if q'.tasks == q.tasks - {t} { DoneEffect(q, q', t, acts); }
    else { WaitEffect(q, q', t, acts); }
  }

  lemma OpenEffect(q: State, t: TaskId, task: Task, c: Choice)
    requires t in q.tasks && q.tasks[t] == task && IsOpen(task) && (task.OpenInsert? ==> c.cancelled || Full(q))
    ensures Effect(q, StepTask(q, t, c), t, TaskActs(q, task, c))
  {
    hide Effect, CodesKept, NoneReady, Full, AliasTaken, Insert, Delete, StepOpenInsert, StepOpenRead, Follows;
    hide TaskActs;
    if task.OpenLock? {
      OpenLockEffect(q, t, task.alias, c);
    } else if task.OpenRead? {
      OpenReadEffect(q, t, task.alias, task.found, c);
    } else if task.OpenInsert? {
      OpenRefusedEffect(q, t, task.alias, task.id, c);
    } else {
      LeaveEffect(q, t, task.alias);
    }
    NoActs(q, task, c);
  }

  lemma NoActs(q: State, task: Task, c: Choice)
    ensures !task.OpenInsert? && Op(task).None? ==> TaskActs(q, task, c) == []
    ensures task.OpenInsert? ==> TaskActs(q, task, c) == if !c.cancelled && Full(q) then [RolledBack(task.id)] else []
  {
  }

  lemma LeaveEffect(q: State, t: TaskId, alias: Alias)
    requires t in q.tasks
    ensures Effect(q, Leave(q, t, alias), t, []) && Effect(q, Done(q, t), t, [])
  {
    hide Effect, Follows;
    DoneEffect(q, Leave(q, t, alias), t, []);
    DoneEffect(q, Done(q, t), t, []);
  }

  lemma PlainFollows(q: State, next: nat, t: TaskId, task: Task)
    requires t in q.tasks && Op(task).None? && (task.OpenInsert? ==> task.id >= q.next) && !Forces(task)
    ensures Follows(q, next, Some(q.tasks[t]), task)
  {
  }

  lemma OpenLockEffect(q: State, t: TaskId, alias: Alias, c: Choice)
    requires t in q.tasks
    ensures Effect(q, StepOpenLock(q, t, alias, c), t, [])
  {
    hide Effect, CodesKept, NoneReady, AliasTaken, Follows;
    StatementsKeepCodes(q.rows, 0, alias, c.reason);
    var q' := StepOpenLock(q, t, alias, c);
    var task := OpenRead(alias, AliasTaken(q.rows, alias));
    if c.cancelled || (alias !in q.locks && !c.listed) {
      LeaveEffect(q, t, alias);
    } else if alias in q.locks {
      WaitEffect(q, q, t, []);
    } else {
      PlainFollows(q, q.next, t, task);
      PutEffect(q, q', t, task, []);
    }
  }

  lemma OpenReadEffect(q: State, t: TaskId, alias: Alias, found: bool, c: Choice)
    requires t in q.tasks
    ensures Effect(q, StepOpenRead(q, t, alias, found, c), t, [])
  {
    hide Effect, CodesKept, NoneReady, AliasTaken, Full, Insert, Follows;
    StatementsKeepCodes(q.rows, q.next, alias, c.reason);
    if c.cancelled || found || Full(q) || AliasTaken(q.rows, alias) {
      LeaveEffect(q, t, alias);
    } else {
      PlainFollows(q, q.next + 1, t, OpenInsert(alias, q.next));
      PutEffect(q, StepOpenRead(q, t, alias, found, c), t, OpenInsert(alias, q.next), []);
    }
  }

  lemma OpenRefusedEffect(q: State, t: TaskId, alias: Alias, id: SessionId, c: Choice)
    requires t in q.tasks && (c.cancelled || Full(q))
    ensures Effect(q, StepOpenInsert(q, t, alias, id, c), t, if c.cancelled then [] else [RolledBack(id)])
  {
    hide Effect, CodesKept, NoneReady, Full, Delete;
    StatementsKeepCodes(q.rows, id, alias, c.reason);
    TurnEffect(q, StepOpenInsert(q, t, alias, id, c), t, OpenRollback(alias),
               if c.cancelled then [] else [RolledBack(id)]);
  }

  lemma StartShutEffect(q: State, t: TaskId, alias: Alias, on: ShutFor, id: SessionId)
    requires on.Forced? ==> t in q.tasks && Forces(q.tasks[t]) && q.tasks[t].alias == alias
    ensures Effect(q, StartShut(q, t, alias, on, id), t, [])
  {
    hide Effect, CodesKept, NoneReady, Lookup;
    StatementsKeepCodes(q.rows, id, alias, UserRequested);
    PutEffect(q, StartShut(q, t, alias, on, id), t, Shut(alias, on, id, q.next, ShutRead(Lookup(q.rows, id))), []);
  }

  lemma StartCloseEffect(q: State, t: TaskId, alias: Alias, force: bool, id: SessionId)
    requires TasksFresh(q.tasks, q.next) && t in q.tasks && IsClose(q.tasks[t])
    requires q.tasks[t].alias == alias && q.tasks[t].force == force
    ensures Effect(q, StartClose(q, t, alias, force, id), t, [])
  {
    hide Effect, CodesKept, NoneReady, StartShut;
    if force { StartShutEffect(q, t, alias, Forced, id); }
    StatementsKeepCodes(q.rows, id, alias, UserRequested);
    SpawnEffect(q, Spawn(Leave(q, t, alias), Shut(alias, Spawned, id, q.next, ShutStart)), t,
                Shut(alias, Spawned, id, q.next, ShutStart), []);
  }

  /** What tables, locks and the tunnel numbers do first makes no difference. */
  lemma AfterEffect(q: State, q1: State, q': State, t: TaskId, first: seq<Act>, acts: seq<Act>, all: seq<Act>)
    requires q1.rows == q.rows && q1.tasks == q.tasks && q1.opens == q.opens && q1.launched == q.launched
    requires q1.log == q.log + first && q1.next >= q.next && all == first + acts
    requires Effect(q1, q', t, acts) && (q1.next == q.next || (t in q.tasks && !IsClose(q.tasks[t])))
    ensures Effect(q, q', t, all)
  {
    hide CodesKept, NoneReady;
    var before := if t in q.tasks then Some(q.tasks[t]) else None;
    forall u | u in q'.tasks && u == t && Follows(q1, q'.next, before, q'.tasks[u])
      ensures Follows(q, q'.next, before, q'.tasks[u])
    {
    }
  }

  lemma CloseEffect(q: State, t: TaskId, task: Task, c: Choice)
    requires t in q.tasks && q.tasks[t] == task && IsClose(task) && TasksFresh(q.tasks, q.next)
    ensures Effect(q, StepTask(q, t, c), t, [])
  {
    hide Effect, StepCloseLock, StepCloseRead, StepCloseMark, StepCloseSettle, TasksFresh;
    if task.CloseLock? {
      CloseLockEffect(q, t, task.alias, task.force, c);
    } else if task.CloseRead? {
      CloseReadEffect(q, t, task.alias, task.force, task.seenId, c);
    } else if task.CloseMark? {
      CloseMarkEffect(q, t, task.alias, task.force, task.id, c);
    } else {
      CloseSettleEffect(q, t, task.alias, task.force, task.id);
    }
  }

  lemma CloseLockEffect(q: State, t: TaskId, alias: Alias, force: bool, c: Choice)
    requires t in q.tasks
    requires IsClose(q.tasks[t]) && q.tasks[t].alias == alias && q.tasks[t].force == force
    ensures Effect(q, StepCloseLock(q, t, alias, force, c), t, [])
  {
    hide Effect, FindByAlias;
    TurnEffect(q, StepCloseLock(q, t, alias, force, c), t, CloseRead(alias, force, FindByAlias(q.rows, alias)), []);
  }

  lemma CloseReadEffect(q: State, t: TaskId, alias: Alias, force: bool, found: Option<SessionId>, c: Choice)
    requires t in q.tasks
    requires IsClose(q.tasks[t]) && q.tasks[t].alias == alias && q.tasks[t].force == force
    ensures Effect(q, StepCloseRead(q, t, alias, force, found, c), t, [])
  {
    hide Effect, CodesKept, NoneReady, MarkStopping;
    var id := if found.Some? then found.value else 0;
    StatementsKeepCodes(q.rows, id, alias, c.reason);
    TurnEffect(q, StepCloseRead(q, t, alias, force, found, c), t, CloseMark(alias, force, id), []);
  }

  lemma CloseSettleEffect(q: State, t: TaskId, alias: Alias, force: bool, id: SessionId)
    requires TasksFresh(q.tasks, q.next) && t in q.tasks && IsClose(q.tasks[t])
    requires IsClose(q.tasks[t]) && q.tasks[t].alias == alias && q.tasks[t].force == force
    ensures Effect(q, StepCloseSettle(q, t, alias, force, id), t, [])
  {
    hide Effect, StartClose, TasksFresh;
    StartCloseEffect(q, t, alias, force, id);
    WaitEffect(q, q, t, []);
  }

  lemma CloseMarkEffect(q: State, t: TaskId, alias: Alias, force: bool, id: SessionId, c: Choice)
    requires t in q.tasks && TasksFresh(q.tasks, q.next) && IsClose(q.tasks[t])
    requires IsClose(q.tasks[t]) && q.tasks[t].alias == alias && q.tasks[t].force == force
    ensures Effect(q, StepCloseMark(q, t, alias, force, id, c), t, [])
  {
    hide Effect, CodesKept, NoneReady, StartClose;
    var q' := StepCloseMark(q, t, alias, force, id, c);
    var quiet := q.(timers := q.timers - {id}, registry := q.registry - {id});
    StatementsKeepCodes(q.rows, id, alias, UserRequested);
    if c.cancelled {
      DoneEffect(q, q', t, []);
    } else if id in q.starts {
      PutEffect(q, q', t, CloseSettle(alias, force, id), []);
    } else {
      StartCloseEffect(quiet, t, alias, force, id);
      AfterEffect(q, quiet, q', t, [], [], []);
    }
  }

  // ---- reattachments -------------------------------------------------------

  /** What a failed attempt adds to the log when the caller is startup recovery. */
  ghost function FailureActs(on: AttachFor, id: SessionId, row: Row, op: nat, why: Option<Unavailable>): seq<Act> {
    if on.ByRecovery? && why == Some(Absent) && (row.state == Starting || row.state == Error) then
      [Deleted(op, id, false)]
    else []
  }

  lemma RecoveryFailureEffect(
    q: State, t: TaskId, alias: Alias, todo: seq<Found>, id: SessionId, row: Row, op: nat, why: Option<Unavailable>,
    c: Choice)
    requires t in q.tasks
    ensures
      Effect(q, AttachFailed(q, t, alias, ByRecovery(todo), id, row, op, why, c), t,
             FailureActs(ByRecovery(todo), id, row, op, why))
  {
    hide Effect, Delete, ClearRemoteIdentity, MarkError;
    if why == Some(Absent) && (row.state == Starting || row.state == Error) {
      DeletesEffect(q, t, alias, todo, id, op);
    } else if why == Some(Absent) {
      PatchEffect(q, t, RecoverClear(alias, id, todo), alias, id);
    } else if why.Some? || row.state != Error {
      PatchEffect(q, t, RecoverMark(alias, id, todo), alias, id);
    } else {
      UnlockEffect(q, t, RecoverNext(todo), alias);
    }
  }

  lemma DeletesEffect(q: State, t: TaskId, alias: Alias, todo: seq<Found>, id: SessionId, op: nat)
    requires t in q.tasks
    ensures var q' := Put(q, t, RecoverDelete(alias, id, todo)).(
        rows := Delete(q.rows, id), log := q.log + [Deleted(op, id, false)]);
      Effect(q, q', t, [Deleted(op, id, false)])
  {
    hide Effect, CodesKept, NoneReady, Follows, Delete;
    StatementsKeepCodes(q.rows, id, alias, UserRequested);
    PlainFollows(q, q.next, t, RecoverDelete(alias, id, todo));
    var q' := Put(q, t, RecoverDelete(alias, id, todo)).(
        rows := Delete(q.rows, id), log := q.log + [Deleted(op, id, false)]);
    PutEffect(q, q', t, RecoverDelete(alias, id, todo), [Deleted(op, id, false)]);
  }

  lemma PatchEffect(q: State, t: TaskId, task: Task, alias: Alias, id: SessionId)
    requires t in q.tasks && Op(task).None? && !task.OpenInsert? && !Forces(task)
    ensures Effect(q, Put(q, t, task).(rows := ClearRemoteIdentity(q.rows, id)), t, [])
    ensures Effect(q, Put(q, t, task).(rows := MarkError(q.rows, id, RecoveryFailed)), t, [])
  {
    hide Effect, CodesKept, NoneReady, Follows, ClearRemoteIdentity, MarkError;
    StatementsKeepCodes(q.rows, id, alias, UserRequested);
    PlainFollows(q, q.next, t, task);
    PutEffect(q, Put(q, t, task).(rows := ClearRemoteIdentity(q.rows, id)), t, task, []);
    PutEffect(q, Put(q, t, task).(rows := MarkError(q.rows, id, RecoveryFailed)), t, task, []);
  }

  lemma UnlockEffect(q: State, t: TaskId, task: Task, alias: Alias)
    requires t in q.tasks && Op(task).None? && !task.OpenInsert? && !Forces(task)
    ensures Effect(q, Put(q, t, task), t, []) && Effect(q, Put(Unlock(q, alias), t, task), t, [])
  {
    hide Effect, CodesKept, NoneReady, Follows;
    StatementsKeepCodes(q.rows, 0, alias, UserRequested);
    PlainFollows(q, q.next, t, task);
    PutEffect(q, Put(q, t, task), t, task, []);
    PutEffect(q, Put(Unlock(q, alias), t, task), t, task, []);
  }

  lemma FailureEffect(
    q: State, t: TaskId, alias: Alias, on: AttachFor, id: SessionId, row: Row, op: nat, why: Option<Unavailable>,
    c: Choice)
    requires t in q.tasks
    ensures Effect(q, AttachFailed(q, t, alias, on, id, row, op, why, c), t, FailureActs(on, id, row, op, why))
  {
    hide Effect, StartShut, Put, Unlock, Leave;
    if on.ByRecovery? {
      hide AttachFailed;
      RecoveryFailureEffect(q, t, alias, on.todo, id, row, op, why, c);
    } else if on.ByExit? {
      UnlockEffect(q, t, ExitWait(alias, id), alias);
      UnlockEffect(q, t, ExitGiveUp(alias, id), alias);
    } else {
      UnlockEffect(q, t, RetrySleep(alias, id, row), alias);
      StartShutEffect(q, t, alias, Retrying, id);
      LeaveEffect(q, t, alias);
    }
  }

  /** Closing the chain first, and logging what the helper said before. */
  lemma GivesUpEffect(
    q: State, said: State, t: TaskId, alias: Alias, on: AttachFor, id: SessionId, row: Row, op: nat,
    why: Option<Unavailable>, first: seq<Act>, all: seq<Act>, c: Choice)
    requires t in q.tasks && !IsClose(q.tasks[t]) && said == q.(log := q.log + first)
    requires all == first + FailureActs(on, id, row, op, if c.closed then why else None)
    ensures Effect(q, AttachGivesUp(said, t, alias, on, id, row, op, why, c), t, all)
  {
    hide Effect, AttachFailed, FailureActs;
    var reason := if c.closed then why else None;
    var kept := Retain(said, id, c.closed);
    FailureEffect(kept, t, alias, on, id, row, op, reason, c);
    AfterEffect(q, kept, AttachFailed(kept, t, alias, on, id, row, op, reason, c), t, first,
                FailureActs(on, id, row, op, reason), all);
  }

  lemma StartAttachEffect(
    q: State, t: TaskId, alias: Alias, on: AttachFor, id: SessionId, row: Row, c: Choice)
    requires t in q.tasks
    ensures Effect(q, StartAttach(q, t, alias, on, id, row, c), t, [])
  {
    hide Effect, CodesKept, NoneReady, AttachFailed, BeginRecovery;
    if id in q.tunnels {
      FailureEffect(q, t, alias, on, id, row, q.next, None, c);
    } else {
      var task := Attach(alias, on, id, row, q.next, AttachBegin(Recoverable(q.rows, id)));
      StatementsKeepCodes(q.rows, id, alias, UserRequested);
      PutEffect(q, StartAttach(q, t, alias, on, id, row, c), t, task, []);
    }
  }

  /** Being cancelled: the task ends, and its chain may be kept. */
  lemma CancelledEffect(q: State, t: TaskId, alias: Alias, id: SessionId, closed: bool)
    requires t in q.tasks
    ensures Effect(q, Leave(Retain(q, id, closed), t, alias), t, [])
  {
    hide Effect, CodesKept, NoneReady;
    StatementsKeepCodes(q.rows, id, alias, UserRequested);
    DoneEffect(q, Leave(Retain(q, id, closed), t, alias), t, []);
  }

  /** The turn in which an attempt completes the recovery of its row. */
  ghost predicate Completes(task: Task, c: Choice) {
    && task.Attach? && task.step == AttachBegin(true)
    && !c.cancelled && c.connected && Confirms(c.inspection, task.row) && c.healthy
  }

  lemma AttachBeginEffect(
    q: State, t: TaskId, alias: Alias, on: AttachFor, id: SessionId, row: Row, op: nat, eligible: bool, c: Choice)
    requires t in q.tasks && q.tasks[t] == Attach(alias, on, id, row, op, AttachBegin(eligible))
    requires !Completes(q.tasks[t], c)
    ensures
      Effect(q, StepAttach(q, t, alias, on, id, row, op, AttachBegin(eligible), c), t,
             AttachActs(on, id, row, op, AttachBegin(eligible), c))
  {
    hide Effect, CodesKept, NoneReady, Follows, AttachFailed, AttachGivesUp, IdentityFromInspection;
    hide CompleteRecovery, Retain, Leave;
    InspectionDecides(row, c.inspection);
    if c.cancelled {
      CancelledEffect(q, t, alias, id, !eligible || c.closed);
    } else if !eligible {
      FailureEffect(q, t, alias, on, id, row, op, Some(NotEligible), c);
    } else if !c.connected {
      GivesUpEffect(q, q, t, alias, on, id, row, op, None, [], [], c);
    } else if !c.inspection.running {
      var first := [Confirmed(op, id), Removing(op, id)];
      GivesUpEffect(q, q.(log := q.log + first), t, alias, on, id, row, op, if c.removed then Some(Absent) else None,
                    first, AttachActs(on, id, row, op, AttachBegin(eligible), c), c);
    } else {
      AttachRunningEffect(q, t, alias, on, id, row, op, c);
    }
  }

  lemma AttachRunningEffect(
    q: State, t: TaskId, alias: Alias, on: AttachFor, id: SessionId, row: Row, op: nat, c: Choice)
    requires t in q.tasks && q.tasks[t] == Attach(alias, on, id, row, op, AttachBegin(true))
    requires !c.cancelled && c.connected && c.inspection.running && !Completes(q.tasks[t], c)
    ensures Effect(q, StepAttach(q, t, alias, on, id, row, op, AttachBegin(true), c), t, [])
  {
    hide Effect, CodesKept, NoneReady, AttachFailed, AttachGivesUp, IdentityFromInspection, CompleteRecovery, Confirms;
    InspectionDecides(row, c.inspection);
    match IdentityFromInspection(row, c.inspection)
    case Err(why) => GivesUpEffect(q, q, t, alias, on, id, row, op, Some(why), [], [], c);
    case Ok(found) => GivesUpEffect(q, q, t, alias, on, id, row, op, None, [], [], c);
  }

  /** The row of a completed recovery. */
  ghost function Recovered(row: Row, c: Choice): Row {
    row.(state := Ready, identity := c.inspection.found, localPort := Some(c.port), errorCode := None)
  }

  lemma CompleteTurn(q: State, t: TaskId, task: Task, c: Choice)
    requires t in q.tasks && q.tasks[t] == task && Completes(task, c)
    ensures var q' := StepTask(q, t, c);
      && Effect(q, q'.(rows := q.rows), t, TaskActs(q, task, c)) && CodesKept(q.rows, q'.rows)
      && q'.rows == (if Recoverable(q.rows, task.id) then q.rows[task.id := Recovered(q.rows[task.id], c)] else q.rows)
  {
    hide Effect, CodesKept, NoneReady, IdentityFromInspection, Confirms;
    var Attach(alias, on, id, row, op, _) := task;
    var q' := StepTask(q, t, c);
    InspectionDecides(row, c.inspection);
    RunsOn(row, c.inspection);
    var found := IdentityFromInspection(row, c.inspection).value;
    CompletingKeepsCodes(q.rows, id, found, c.port);
    StatementsKeepCodes(q.rows, id, alias, UserRequested);
    var next := Attach(alias, on, id, row, op, AttachComplete(Recoverable(q.rows, id), c.port));
    PutEffect(q, q'.(rows := q.rows), t, next, []);
  }

  lemma RunsOn(row: Row, inspection: Inspection)
    requires Confirms(inspection, row)
    ensures inspection.running
  {
  }

  lemma AttachCompleteEffect(
    q: State, t: TaskId, alias: Alias, on: AttachFor, id: SessionId, row: Row, op: nat, completed: bool, port: int,
    c: Choice)
    requires t in q.tasks && q.tasks[t] == Attach(alias, on, id, row, op, AttachComplete(completed, port))
    ensures Effect(q, StepAttach(q, t, alias, on, id, row, op, AttachComplete(completed, port), c), t, [])
  {
    hide Effect, CodesKept, NoneReady, AttachFailed, AttachGivesUp, Retain, Leave;
    if c.cancelled {
      CancelledEffect(q, t, alias, id, c.closed);
    } else if !c.timely && !on.ByRecovery? {
      GivesUpEffect(q, q, t, alias, on, id, row, op, None, [], [], c.(again := false));
    } else if !completed {
      GivesUpEffect(q, q, t, alias, on, id, row, op, Some(NotEligible), [], [], c);
    } else {
      AttachInstallsEffect(q, t, alias, on, id, row, op, port, c);
    }
  }

  lemma AttachInstallsEffect(
    q: State, t: TaskId, alias: Alias, on: AttachFor, id: SessionId, row: Row, op: nat, port: int, c: Choice)
    requires t in q.tasks && q.tasks[t] == Attach(alias, on, id, row, op, AttachComplete(true, port))
    requires !c.cancelled && (c.timely || on.ByRecovery?)
    ensures Effect(q, StepAttach(q, t, alias, on, id, row, op, AttachComplete(true, port), c), t, [])
  {
    hide Effect, CodesKept, NoneReady, AttachFailed;
    var installed := q.(tunnels := q.tunnels[id := q.next], next := q.next + 1);
    var q' := StepAttach(q, t, alias, on, id, row, op, AttachComplete(true, port), c);
    if id in q.registry {
      FailureEffect(installed, t, alias, on, id, row, op, None, c);
        AfterEffect(q, installed, q', t, [], [], []);
    } else {
      StatementsKeepCodes(q.rows, id, alias, UserRequested);
      PutEffect(q, q', t, Attach(alias, on, id, row, op, AttachRead(id in q.rows)), []);
    }
  }

  lemma AttachReadEffect(
    q: State, t: TaskId, alias: Alias, on: AttachFor, id: SessionId, row: Row, op: nat, found: bool, c: Choice)
    requires t in q.tasks && q.tasks[t] == Attach(alias, on, id, row, op, AttachRead(found))
    ensures Effect(q, StepAttach(q, t, alias, on, id, row, op, AttachRead(found), c), t, [])
  {
    hide Effect, CodesKept, NoneReady, Follows, AttachFailed;
    LeaveEffect(q, t, alias);
    FailureEffect(q, t, alias, on, id, row, op, None, c);
    FailureEffect(q, t, alias, on, id, row, op, None, c.(again := false));
    if !c.cancelled && (c.timely || on.ByRecovery?) && found && on.ByRecovery? {
      StatementsKeepCodes(q.rows, id, alias, UserRequested);
      PlainFollows(q, q.next, t, RecoverNext(on.todo));
      PutEffect(q, Attached(q, t, alias, on, id, c), t, RecoverNext(on.todo), []);
    }
  }

  lemma AttachEffect(q: State, t: TaskId, task: Task, c: Choice)
    requires t in q.tasks && q.tasks[t] == task && task.Attach? && !Completes(task, c)
    ensures Effect(q, StepTask(q, t, c), t, TaskActs(q, task, c))
  {
    hide Effect, StepAttach, AttachActs;
    var Attach(alias, on, id, row, op, step) := task;
    match step
    case AttachBegin(eligible) => AttachBeginEffect(q, t, alias, on, id, row, op, eligible, c);
    case AttachComplete(completed, port) =>
      AttachCompleteEffect(q, t, alias, on, id, row, op, completed, port, c);
      LaterAttachActs(on, id, row, op, step, c);
    case AttachRead(found) =>
      AttachReadEffect(q, t, alias, on, id, row, op, found, c);
      LaterAttachActs(on, id, row, op, step, c);
  }

  lemma LaterAttachActs(on: AttachFor, id: SessionId, row: Row, op: nat, step: AttachStep, c: Choice)
    requires !step.AttachBegin?
    ensures AttachActs(on, id, row, op, step, c) == []
  {
  }

  // ---- retry -------------------------------------------------------------

  lemma TakeEffect(q: State, t: TaskId, alias: Alias, task: Task)
    requires t in q.tasks && Op(task).None? && !task.OpenInsert? && !Forces(task)
    ensures Effect(q, Take(q, t, alias, task), t, [])
  {
    hide Effect, CodesKept, NoneReady, Follows;
    StatementsKeepCodes(q.rows, 0, alias, UserRequested);
    PlainFollows(q, q.next, t, task);
    PutEffect(q, Take(q, t, alias, task), t, task, []);
  }

  lemma StayEffect(q: State, t: TaskId)
    requires t in q.tasks
    ensures Effect(q, q, t, [])
  {
    hide Effect, Follows;
    WaitEffect(q, q, t, []);
  }

  lemma StartRetryEffect(q: State, t: TaskId, alias: Alias, id: SessionId, row: Row, c: Choice)
    requires t in q.tasks && !IsClose(q.tasks[t])
    ensures Effect(q, StartRetry(q, t, alias, id, row, c), t, [])
  {
    hide Effect, StartAttach, StartShut;
    var quiet := q.(timers := q.timers - {id}, registry := q.registry - {id});
    StartAttachEffect(quiet, t, alias, ByRetry, id, row, c);
    StartShutEffect(quiet, t, alias, Retrying, id);
    AfterEffect(q, quiet, StartRetry(q, t, alias, id, row, c), t, [], [], []);
  }

  lemma RetryReadEffect(q: State, t: TaskId, alias: Alias, seen: Option<Found>, c: Choice)
    requires t in q.tasks && !IsClose(q.tasks[t])
    ensures Effect(q, StepRetryRead(q, t, alias, seen, c), t, [])
  {
    hide Effect, StartRetry, Leave, Put;
    if c.cancelled || seen.None? || seen.value.row.state != Error {
      LeaveEffect(q, t, alias);
    } else {
      var Found(id, row) := seen.value;
      StartRetryEffect(q, t, alias, id, row, c);
      var task := RetrySettle(alias, id, row);
      UnlockEffect(q, t, task, alias);
      SettleEffect(q, Put(q, t, task), t, id);
    }
  }

  lemma SettleEffect(q: State, q': State, t: TaskId, id: SessionId)
    requires Effect(q, q', t, [])
    ensures Effect(q, q'.(starts := q.starts - {id}, settling := q.settling[id := t]), t, [])
  {
    hide CodesKept, NoneReady, Follows;
  }

  lemma RetryEffect(q: State, t: TaskId, task: Task, c: Choice)
    requires t in q.tasks && q.tasks[t] == task && IsRetry(task)
    ensures Effect(q, StepTask(q, t, c), t, [])
  {
    hide Effect, FindByAlias, StepRetryRead, StartAttach, StartRetry, Take, Leave, Put, Unlock, Done;
    StayEffect(q, t);
    LeaveEffect(q, t, task.alias);
    if task.RetryLock? {
      var found := FindByAlias(q.rows, task.alias);
      TakeEffect(q, t, task.alias,
                 RetryRead(task.alias, if found.Some? then Some(Found(found.value, q.rows[found.value])) else None));
    } else if task.RetryRead? {
      RetryReadEffect(q, t, task.alias, task.seen, c);
    } else if task.RetrySettle? {
      StartRetryEffect(q, t, task.alias, task.id, task.row, c);
    } else if task.RetrySleep? {
      StartAttachEffect(q, t, task.alias, ByRetry, task.id, task.row, c);
    } else {
      UnlockEffect(q, t, OpenLock(task.alias), task.alias);
    }
  }

  // ---- tunnel exits ------------------------------------------------------

  lemma ExitEffect(q: State, t: TaskId, task: Task, c: Choice)
    requires t in q.tasks && q.tasks[t] == task && IsExit(task)
    ensures Effect(q, StepTask(q, t, c), t, [])
  {
    hide Effect, Lookup, StartAttach, Take, Leave, Put, Unlock, Done, Withdrawn, MarkError, StepExitCheck;
    hide StepExitClosing;
    hide StepExitFinal, StepExitFresh;
    var alias, id := task.alias, task.id;
    StayEffect(q, t);
    LeaveEffect(q, t, alias);
    if task.ExitRead? {
      UnlockEffect(q, t, ExitLock(alias, id, task.tunnel), alias);
    } else if task.ExitLock? {
      TakeEffect(q, t, alias, ExitCheck(alias, id, task.tunnel, Lookup(q.rows, id)));
    } else if task.ExitCheck? {
      ExitCheckEffect(q, t, alias, id, task.tunnel, task.latest, c);
    } else if task.ExitClosing? {
      ExitClosingEffect(q, t, alias, id, task.tunnel, c);
    } else if task.ExitWait? {
      UnlockEffect(q, t, ExitGiveUp(alias, id), alias);
      TakeEffect(q, t, alias, ExitFresh(alias, id, Lookup(q.rows, id)));
    } else if task.ExitFresh? {
      ExitFreshEffect(q, t, alias, id, task.latest, c);
    } else if task.ExitGiveUp? {
      TakeEffect(q, t, alias, ExitFinal(alias, id, Lookup(q.rows, id)));
    } else if task.ExitFinal? {
      ExitFinalEffect(q, t, alias, id, task.latest, c);
    }
  }

  lemma ExitFreshEffect(q: State, t: TaskId, alias: Alias, id: SessionId, latest: Option<Row>, c: Choice)
    requires t in q.tasks
    ensures Effect(q, StepExitFresh(q, t, alias, id, latest, c), t, [])
  {
    hide Effect, StartAttach, Leave, Put, Unlock;
    LeaveEffect(q, t, alias);
    UnlockEffect(q, t, ExitGiveUp(alias, id), alias);
    if latest.Some? { StartAttachEffect(q, t, alias, ByExit, id, latest.value, c); }
  }

  lemma ExitCheckEffect(
    q: State, t: TaskId, alias: Alias, id: SessionId, tunnel: nat, latest: Option<Row>, c: Choice)
    requires t in q.tasks
    ensures Effect(q, StepExitCheck(q, t, alias, id, tunnel, latest, c), t, [])
  {
    hide Effect, CodesKept, NoneReady, Follows, Leave, Withdrawn;
    LeaveEffect(q, t, alias);
    if !(c.cancelled || Withdrawn(latest) || id !in q.tunnels || q.tunnels[id] != tunnel) {
      StatementsKeepCodes(q.rows, id, alias, UserRequested);
      PlainFollows(q, q.next, t, ExitClosing(alias, id, tunnel));
      PutEffect(q, StepExitCheck(q, t, alias, id, tunnel, latest, c), t, ExitClosing(alias, id, tunnel), []);
    }
  }

  lemma ExitClosingEffect(q: State, t: TaskId, alias: Alias, id: SessionId, tunnel: nat, c: Choice)
    requires t in q.tasks
    ensures Effect(q, StepExitClosing(q, t, alias, id, tunnel, c), t, [])
  {
    hide Effect, CodesKept, NoneReady, Follows, Leave;
    LeaveEffect(q, t, alias);
    if !c.cancelled {
      StatementsKeepCodes(q.rows, id, alias, UserRequested);
      PlainFollows(q, q.next, t, ExitWait(alias, id));
      PutEffect(q, StepExitClosing(q, t, alias, id, tunnel, c), t, ExitWait(alias, id), []);
    }
  }

  lemma ExitFinalEffect(q: State, t: TaskId, alias: Alias, id: SessionId, latest: Option<Row>, c: Choice)
    requires t in q.tasks
    ensures Effect(q, StepExitFinal(q, t, alias, id, latest, c), t, [])
  {
    hide Effect, CodesKept, NoneReady, Follows, Leave, Withdrawn, MarkError;
    LeaveEffect(q, t, alias);
    if !(c.cancelled || Withdrawn(latest)) {
      StatementsKeepCodes(q.rows, id, alias, UserRequested);
      PlainFollows(q, q.next, t, ExitMark(alias, id));
      PutEffect(q, StepExitFinal(q, t, alias, id, latest, c), t, ExitMark(alias, id), []);
    }
  }

  // ---- recovery ----------------------------------------------------------

  lemma RecoverNextEffect(q: State, t: TaskId, todo: seq<Found>, c: Choice)
    requires t in q.tasks && !IsClose(q.tasks[t])
    ensures Effect(q, StepRecoverNext(q, t, todo, c), t, [])
  {
    hide Effect, StartAttach, StartShut, Put, Done;
    if todo == [] {
      EndsEffect(q, t);
    } else if todo[0].row.alias in q.locks {
      StayEffect(q, t);
    } else {
      var Found(id, row) := todo[0];
      var alias := row.alias;
      var held := q.(locks := q.locks[alias := t], backlog := q.backlog - {id});
      StartAttachEffect(held, t, alias, ByRecovery(todo[1..]), id, row, c);
      StartShutEffect(held, t, alias, Recovering(todo[1..]), id);
      InspectsEffect(held, t, alias, id, todo[1..]);
      AfterEffect(q, held, StepRecoverNext(q, t, todo, c), t, [], [], []);
    }
  }

  lemma EndsEffect(q: State, t: TaskId)
    requires t in q.tasks
    ensures Effect(q, Done(q, t).(recoverer := None), t, [])
  {
    hide Effect, CodesKept, NoneReady;
    StatementsKeepCodes(q.rows, 0, Alias(""), UserRequested);
    DoneEffect(q, Done(q, t).(recoverer := None), t, []);
  }

  lemma InspectsEffect(q: State, t: TaskId, alias: Alias, id: SessionId, todo: seq<Found>)
    requires t in q.tasks
    ensures Effect(q, Put(q, t, RecoverInspect(alias, id, q.next, todo)).(next := q.next + 1), t, [])
  {
    hide Effect, CodesKept, NoneReady;
    StatementsKeepCodes(q.rows, id, alias, UserRequested);
    var task := RecoverInspect(alias, id, q.next, todo);
    PutEffect(q, Put(q, t, task).(next := q.next + 1), t, task, []);
  }

  lemma RecoverInspectEffect(
    q: State, t: TaskId, alias: Alias, id: SessionId, op: nat, todo: seq<Found>, c: Choice)
    requires t in q.tasks && q.tasks[t] == RecoverInspect(alias, id, op, todo)
    ensures Effect(q, StepRecoverInspect(q, t, alias, id, op, todo, c), t, TaskActs(q, q.tasks[t], c))
  {
    hide Effect, Delete, Put, Unlock, Retain;
    if !c.connected || c.inspection.running {
      KeepsEffect(q, t, alias, id, todo, [], c.closed);
    } else {
      KeepsEffect(q, t, alias, id, todo, [Confirmed(op, id), Removing(op, id)], c.closed);
      InspectedEffect(q, t, alias, id, op, todo);
      assert [Confirmed(op, id), Removing(op, id)] + [] == [Confirmed(op, id), Removing(op, id)];
    }
  }

  lemma KeepsEffect(
    q: State, t: TaskId, alias: Alias, id: SessionId, todo: seq<Found>, acts: seq<Act>, closed: bool)
    requires t in q.tasks && !IsClose(q.tasks[t])
    ensures
      var said := q.(log := q.log + acts);
      Effect(q, Put(Unlock(Retain(said, id, closed), alias), t, RecoverNext(todo)), t, acts)
    ensures acts == [] ==> Effect(q, Put(Unlock(Retain(q, id, closed), alias), t, RecoverNext(todo)), t, acts)
  {
    hide Effect, Put, Unlock;
    var said := q.(log := q.log + acts);
    var kept := Retain(said, id, closed);
    UnlockEffect(kept, t, RecoverNext(todo), alias);
    assert acts + [] == acts;
    AfterEffect(q, kept, Put(Unlock(kept, alias), t, RecoverNext(todo)), t, acts, [], acts);
    if acts == [] { assert said == q; }
  }

  lemma InspectedEffect(q: State, t: TaskId, alias: Alias, id: SessionId, op: nat, todo: seq<Found>)
    requires t in q.tasks
    ensures
      var said := q.(log := q.log + [Confirmed(op, id), Removing(op, id)]);
      var q' := Put(said, t, RecoverDelete(alias, id, todo)).(
        rows := Delete(q.rows, id), log := said.log + [Deleted(op, id, false)]);
      Effect(q, q', t, [Confirmed(op, id), Removing(op, id)] + [Deleted(op, id, false)])
  {
    hide Effect, CodesKept, NoneReady, Follows, Delete;
    StatementsKeepCodes(q.rows, id, alias, UserRequested);
    PlainFollows(q, q.next, t, RecoverDelete(alias, id, todo));
    var acts := [Confirmed(op, id), Removing(op, id)];
    var q' := Put(q, t, RecoverDelete(alias, id, todo)).(
        rows := Delete(q.rows, id), log := (q.log + acts) + [Deleted(op, id, false)]);
    assert q'.log == q.log + (acts + [Deleted(op, id, false)]);
    PutEffect(q, q', t, RecoverDelete(alias, id, todo), acts + [Deleted(op, id, false)]);
  }

  lemma RecoverEffect(q: State, t: TaskId, task: Task, c: Choice)
    requires t in q.tasks && q.tasks[t] == task && IsRecover(task)
    ensures Effect(q, StepTask(q, t, c), t, TaskActs(q, task, c))
  {
    hide Effect, StepRecoverNext, StepRecoverInspect, Put, Unlock, MarkError;
    if task.RecoverNext? {
      RecoverNextEffect(q, t, task.todo, c);
    } else if task.RecoverInspect? {
      RecoverInspectEffect(q, t, task.alias, task.id, task.op, task.todo, c);
    } else if task.RecoverDelete? {
      ReleaseEffect(q, t, task.alias, task.id, task.todo);
    } else if task.RecoverClear? {
      PatchEffect(q, t, RecoverMark(task.alias, task.id, task.todo), task.alias, task.id);
    } else {
      UnlockEffect(q, t, RecoverNext(task.todo), task.alias);
    }
    NoActs(q, task, c);
  }

  lemma ReleaseEffect(q: State, t: TaskId, alias: Alias, id: SessionId, todo: seq<Found>)
    requires t in q.tasks
    ensures Effect(q, StepRecoverDelete(q, t, alias, id, todo), t, [])
  {
    hide Effect, CodesKept, NoneReady, Follows;
    StatementsKeepCodes(q.rows, id, alias, UserRequested);
    PlainFollows(q, q.next, t, RecoverNext(todo));
    PutEffect(q, StepRecoverDelete(q, t, alias, id, todo), t, RecoverNext(todo), []);
  }

  /** Every turn but those of a close operation, an acquiring open and a completing recovery. */
  lemma TurnHasEffect(q: State, t: TaskId, c: Choice)
    requires t in q.tasks && !q.tasks[t].Shut? && TasksFresh(q.tasks, q.next)
    requires q.tasks[t].OpenInsert? ==> c.cancelled || Full(q)
    requires !Completes(q.tasks[t], c)
    ensures Effect(q, StepTask(q, t, c), t, TaskActs(q, q.tasks[t], c))
  {
    hide Effect, StepTask, TasksFresh, Full, TaskActs, Completes;
    var task := q.tasks[t];
    NoActs(q, task, c);
    if IsOpen(task) {
      OpenEffect(q, t, task, c);
    } else if IsClose(task) {
      CloseEffect(q, t, task, c);
    } else if IsRetry(task) {
      RetryEffect(q, t, task, c);
    } else if IsExit(task) {
      ExitEffect(q, t, task, c);
    } else if IsRecover(task) {
      RecoverEffect(q, t, task, c);
    } else {
      AttachEffect(q, t, task, c);
    }
  }

  // ---- _do_close -----------------------------------------------------------

  /** The helper confirmed that nothing of the session runs, or the pre-remote-failure rule says so. */
  predicate Absence(row: Row, c: Choice) {
    || CanCloseWithoutInspection(row)
    || (c.connected && (c.stopped || (row.identity.pid == None && !c.inspection.running)))
  }

  /** Where a turn of _do_close leads; None when the operation is over. */
  ghost predicate ShutLeads(q: State, id: SessionId, caller: ShutFor, at: ShutStep, c: Choice, next: Option<ShutStep>) {
    match at
    case ShutStart => next == Some(ShutRead(Lookup(q.rows, id)))
    case ShutRead(latest) =>
      next == if latest.None? then None else Some(ShutRemote(latest.value, id in q.tunnels))
    case ShutRemote(row, tunnel) =>
      && next.Some? && next.value.ShutClosing? && next.value.tunnel == tunnel
      && next.value.absent == Absence(row, c)
      && (next.value.failed <==> !CanCloseWithoutInspection(row) && !(Absence(row, c) && c.removed))
    case ShutClosing(absent, failed, tunnel) =>
      && next.Some? && next.value.ShutClosed? && next.value.absent == absent
      && (next.value.failed <==> failed || !c.closed || (tunnel && !c.drained))
    case ShutClosed(absent, failed, _) => next == Some(ShutCleared(absent, failed))
    case ShutCleared(absent, failed) =>
      next == Some(if caller.Forced? || (absent && !failed) then ShutDelete else ShutMark)
    case ShutMark => next == None
    case ShutDelete => next == None
  }

  /** The close goes on with `next`, or its task ends or goes back to its caller. */
  ghost predicate ShutTasks(q: State, tasks: map<TaskId, Task>, t: TaskId, task: Task, next: Option<ShutStep>)
    requires task.Shut?
  {
    if next.Some? then tasks == q.tasks[t := task.(at := next.value)]
    else
      || tasks == q.tasks - {t}
      || (t in tasks && tasks == q.tasks[t := tasks[t]]
          && Op(tasks[t]).None? && !tasks[t].OpenInsert? && !Forces(tasks[t]))
  }

  ghost predicate ShutTurn(q: State, q': State, t: TaskId, task: Task, c: Choice, next: Option<ShutStep>)
    requires task.Shut?
  {
    && (if c.cancelled then next == None else ShutLeads(q, task.id, task.caller, task.at, c, next))
    && ShutTasks(q, q'.tasks, t, task, next)
    && Steady(q, q', if c.cancelled then [] else ShutActs(task.caller, task.id, task.op, task.at, c))
  }

  ghost function NextStep(q': State, t: TaskId, task: Task): Option<ShutStep> {
    if t in q'.tasks && q'.tasks[t].Shut? && Op(q'.tasks[t]) == Op(task) then Some(q'.tasks[t].at) else None
  }

  lemma ShutOver(q: State, q1: State, t: TaskId, alias: Alias, caller: ShutFor, id: SessionId, op: nat, at: ShutStep)
    requires t in q.tasks && q1.tasks == q.tasks && Steady(q, q1, [])
    ensures var s, task := AfterShut(q1, t, alias, caller, id), Shut(alias, caller, id, op, at);
      ShutTasks(q, s.tasks, t, task, None) && NextStep(s, t, task) == None && Steady(q, s, [])
    ensures var s, task := DropShut(q1, t, alias, caller), Shut(alias, caller, id, op, at);
      ShutTasks(q, s.tasks, t, task, None) && NextStep(s, t, task) == None && Steady(q, s, [])
  {
    hide CodesKept, NoneReady;
  }

  lemma ShutGoesOn(q: State, q': State, t: TaskId, next: ShutStep, c: Choice)
    requires t in q.tasks && q.tasks[t].Shut? && !c.cancelled
    requires var task := q.tasks[t];
      && q'.tasks == q.tasks[t := task.(at := next)]
      && ShutLeads(q, task.id, task.caller, task.at, c, Some(next))
      && Steady(q, q', ShutActs(task.caller, task.id, task.op, task.at, c))
    ensures ShutTurn(q, q', t, q.tasks[t], c, NextStep(q', t, q.tasks[t]))
  {
    hide CodesKept, NoneReady, ShutLeads, ShutActs;
  }

  lemma ShutStarts(q: State, t: TaskId, alias: Alias, caller: ShutFor, id: SessionId, op: nat, c: Choice)
    requires t in q.tasks && q.tasks[t] == Shut(alias, caller, id, op, ShutStart) && !c.cancelled
    ensures var q' := StepShut(q, t, alias, caller, id, op, ShutStart, c);
      ShutTurn(q, q', t, q.tasks[t], c, NextStep(q', t, q.tasks[t]))
  {
    hide CodesKept, NoneReady, ShutTurn, ShutTasks, NextStep, CanCloseWithoutInspection, Lookup;
    hide ClearTunnelIdentity, ClearRemoteIdentity, MarkError, Delete;
    StatementsKeepCodes(q.rows, id, alias, UserRequested);
    var q' := StepShut(q, t, alias, caller, id, op, ShutStart, c);
    ShutGoesOn(q, q', t, ShutRead(Lookup(q.rows, id)), c);
  }

  lemma ShutReads(q: State, t: TaskId, alias: Alias, caller: ShutFor, id: SessionId, op: nat, row: Row, c: Choice)
    requires t in q.tasks && q.tasks[t] == Shut(alias, caller, id, op, ShutRead(Some(row))) && !c.cancelled
    ensures var q' := StepShut(q, t, alias, caller, id, op, ShutRead(Some(row)), c);
      ShutTurn(q, q', t, q.tasks[t], c, NextStep(q', t, q.tasks[t]))
  {
    hide CodesKept, NoneReady, ShutTurn, ShutTasks, NextStep, CanCloseWithoutInspection, Lookup;
    hide ClearTunnelIdentity, ClearRemoteIdentity, MarkError, Delete;
    StatementsKeepCodes(q.rows, id, alias, UserRequested);
    var q' := StepShut(q, t, alias, caller, id, op, ShutRead(Some(row)), c);
    ShutGoesOn(q, q', t, ShutRemote(row, id in q.tunnels), c);
  }

  lemma ShutAsks(
    q: State, t: TaskId, alias: Alias, caller: ShutFor, id: SessionId, op: nat, row: Row, tunnel: bool, c: Choice)
    requires t in q.tasks && q.tasks[t] == Shut(alias, caller, id, op, ShutRemote(row, tunnel)) && !c.cancelled
    ensures var q' := StepShut(q, t, alias, caller, id, op, ShutRemote(row, tunnel), c);
      ShutTurn(q, q', t, q.tasks[t], c, NextStep(q', t, q.tasks[t]))
  {
    hide CodesKept, NoneReady, ShutTurn, ShutTasks, NextStep, CanCloseWithoutInspection, Lookup;
    hide ClearTunnelIdentity, ClearRemoteIdentity, MarkError, Delete;
    StatementsKeepCodes(q.rows, id, alias, UserRequested);
    var q' := StepShut(q, t, alias, caller, id, op, ShutRemote(row, tunnel), c);
    var r := StopRemote(row, id, op, c);
    ShutGoesOn(q, q', t, ShutClosing(r.absent, r.failed, tunnel), c);
  }

  lemma ShutCloses(
    q: State, t: TaskId, alias: Alias, caller: ShutFor, id: SessionId, op: nat, absent: bool, failed: bool,
    tunnel: bool, c: Choice)
    requires t in q.tasks && !c.cancelled
    requires q.tasks[t] == Shut(alias, caller, id, op, ShutClosing(absent, failed, tunnel))
    ensures var q' := StepShut(q, t, alias, caller, id, op, ShutClosing(absent, failed, tunnel), c);
      ShutTurn(q, q', t, q.tasks[t], c, NextStep(q', t, q.tasks[t]))
  {
    hide CodesKept, NoneReady, ShutTurn, ShutTasks, NextStep, CanCloseWithoutInspection, Lookup;
    hide ClearTunnelIdentity, ClearRemoteIdentity, MarkError, Delete;
    StatementsKeepCodes(q.rows, id, alias, UserRequested);
    var q' := StepShut(q, t, alias, caller, id, op, ShutClosing(absent, failed, tunnel), c);
    ShutGoesOn(q, q', t, ShutClosed(absent, failed || !c.closed || (tunnel && !c.drained), !c.closed), c);
  }

  lemma ShutClears(
    q: State, t: TaskId, alias: Alias, caller: ShutFor, id: SessionId, op: nat, absent: bool, failed: bool,
    retain: bool, c: Choice)
    requires t in q.tasks && !c.cancelled
    requires q.tasks[t] == Shut(alias, caller, id, op, ShutClosed(absent, failed, retain))
    ensures var q' := StepShut(q, t, alias, caller, id, op, ShutClosed(absent, failed, retain), c);
      ShutTurn(q, q', t, q.tasks[t], c, NextStep(q', t, q.tasks[t]))
  {
    hide CodesKept, NoneReady, ShutTurn, ShutTasks, NextStep, CanCloseWithoutInspection, Lookup;
    hide ClearTunnelIdentity, ClearRemoteIdentity, MarkError, Delete;
    StatementsKeepCodes(q.rows, id, alias, UserRequested);
    var q' := StepShut(q, t, alias, caller, id, op, ShutClosed(absent, failed, retain), c);
    ShutGoesOn(q, q', t, ShutCleared(absent, failed), c);
  }

  lemma ShutConcludes(
    q: State, t: TaskId, alias: Alias, caller: ShutFor, id: SessionId, op: nat, absent: bool, failed: bool, c: Choice)
    requires t in q.tasks && q.tasks[t] == Shut(alias, caller, id, op, ShutCleared(absent, failed)) && !c.cancelled
    ensures var q' := StepShut(q, t, alias, caller, id, op, ShutCleared(absent, failed), c);
      ShutTurn(q, q', t, q.tasks[t], c, NextStep(q', t, q.tasks[t]))
  {
    hide CodesKept, NoneReady, ShutTurn, ShutTasks, NextStep, CanCloseWithoutInspection, Lookup;
    hide ClearTunnelIdentity, ClearRemoteIdentity, MarkError, Delete;
    StatementsKeepCodes(q.rows, id, alias, UserRequested);
    var q' := StepShut(q, t, alias, caller, id, op, ShutCleared(absent, failed), c);
    ShutGoesOn(q, q', t, if caller.Forced? || (absent && !failed) then ShutDelete else ShutMark, c);
  }

  lemma ShutEnds(
    q: State, q1: State, t: TaskId, alias: Alias, caller: ShutFor, id: SessionId, op: nat, at: ShutStep, c: Choice)
    requires t in q.tasks && q.tasks[t] == Shut(alias, caller, id, op, at)
    requires q1.tasks == q.tasks && Steady(q, q1, [])
    requires at == ShutRead(None) || at.ShutMark? || at.ShutDelete?
    ensures var s := AfterShut(q1, t, alias, caller, id);
      !c.cancelled ==> ShutTurn(q, s, t, q.tasks[t], c, NextStep(s, t, q.tasks[t]))
  {
    hide CodesKept, NoneReady, AfterShut, NextStep, ShutTasks;
    ShutOver(q, q1, t, alias, caller, id, op, at);
  }

  lemma ShutTurnHolds(
    q: State, t: TaskId, alias: Alias, caller: ShutFor, id: SessionId, op: nat, at: ShutStep, c: Choice)
    requires t in q.tasks && q.tasks[t] == Shut(alias, caller, id, op, at)
    ensures var q' := StepShut(q, t, alias, caller, id, op, at, c);
      ShutTurn(q, q', t, q.tasks[t], c, NextStep(q', t, q.tasks[t]))
  {
    hide CodesKept, NoneReady, AfterShut, DropShut, ShutTasks, NextStep;
    StatementsKeepCodes(q.rows, id, alias, UserRequested);
    if c.cancelled {
      ShutOver(q, q, t, alias, caller, id, op, at);
    } else if at.ShutMark? {
      ShutEnds(q, q, t, alias, caller, id, op, at, c);
    } else if at.ShutDelete? || at == ShutRead(None) {
      ShutEnds(q, Forget(q, id), t, alias, caller, id, op, at, c);
    } else {
      hide ShutTurn, StepShut;
      match at
      case ShutStart => ShutStarts(q, t, alias, caller, id, op, c);
      case ShutRead(latest) => ShutReads(q, t, alias, caller, id, op, latest.value, c);
      case ShutRemote(row, tunnel) => ShutAsks(q, t, alias, caller, id, op, row, tunnel, c);
      case ShutClosing(absent, failed, tunnel) => ShutCloses(q, t, alias, caller, id, op, absent, failed, tunnel, c);
      case ShutClosed(absent, failed, retain) => ShutClears(q, t, alias, caller, id, op, absent, failed, retain, c);
      case ShutCleared(absent, failed) => ShutConcludes(q, t, alias, caller, id, op, absent, failed, c);
    }
  }

  // ---- start tasks -------------------------------------------------------

  /** An acquired slot: the start task begins. */
  lemma AcquireTurn(q: State, t: TaskId, alias: Alias, id: SessionId, c: Choice)
    requires t in q.tasks && q.tasks[t] == OpenInsert(alias, id) && !c.cancelled && !Full(q)
    ensures var q' := StepTask(q, t, c);
      && q'.tasks == q.tasks - {t} && q'.opens.Keys == q.opens.Keys + {id}
      && (forall x :: x in q.opens && x != id ==> q'.opens[x] == q.opens[x])
      && q'.opens[id].phase == Preparing && q'.opens[id].code == InternalError
      && q'.launched == q.launched && q'.log == q.log && q'.rows == q.rows && q'.next == q.next
  {
    hide StepOpenInsert;
    Acquiring(q, t, alias, id, c);
  }

  lemma Acquiring(q: State, t: TaskId, alias: Alias, id: SessionId, c: Choice)
    requires !c.cancelled && !Full(q)
    ensures var q' := StepOpenInsert(q, t, alias, id, c);
      && q'.tasks == q.tasks - {t} && q'.opens.Keys == q.opens.Keys + {id}
      && (forall x :: x in q.opens && x != id ==> q'.opens[x] == q.opens[x])
      && q'.opens[id].phase == Preparing && q'.opens[id].code == InternalError
      && q'.launched == q.launched && q'.log == q.log && q'.rows == q.rows && q'.next == q.next
  {
    hide Full;
    var started := OpenTask(alias, Preparing, false, false, false, false, InternalError);
    assert StepOpenInsert(q, t, alias, id, c) == q.(
        tasks := q.tasks - {t}, locks := q.locks - {alias}, owned := q.owned + {id},
        unacquired := q.unacquired - {id}, starts := q.starts + {id}, opens := q.opens[id := started]);
  }

  /** The start task asks the helper to start the session. */
  ghost predicate Launches(q: State, e: Event, id: SessionId) {
    e.OpenTurn? && e.id == id && id in q.opens && q.opens[id].phase == Preparing && e.answers.asked
  }

  /** What a start task's turn does to the bookkeeping: only a failure to connect gives it one of the four
      codes, and only the clean-up's last statement gives the row the code. */
  ghost predicate OpenEffects(q: State, q': State, id: SessionId, c: Choice)
    requires id in q.opens
  {
    var o := q.opens[id];
    && q'.tasks == q.tasks && q'.log == q.log && q'.next >= q.next
    && q'.launched == (if o.phase.Preparing? && c.asked then q.launched + {id} else q.launched)
    && OpenGoesOn(q, q'.opens, id, c)
    && OpenCodes(q.rows, q'.rows, id, o)
  }

  ghost predicate OpenGoesOn(q: State, opens: map<SessionId, OpenTask>, id: SessionId, c: Choice)
    requires id in q.opens
  {
    || opens == q.opens - {id}
    || (id in opens && opens == q.opens[id := opens[id]] && opens[id].phase != Preparing
        && (opens[id].code == q.opens[id].code || !IsPreRemoteFailure(opens[id].code)
            || (q.opens[id].phase.Preparing? && !c.asked)))
  }

  ghost predicate OpenCodes(rows: Table, rows': Table, id: SessionId, o: OpenTask) {
    forall x :: x in rows' && PreRemoteCode(rows'[x]) ==>
      || (x in rows && rows'[x].errorCode == rows[x].errorCode)
      || (x == id && rows'[x].errorCode == Some(o.code) && !o.phase.Preparing?)
  }

  lemma OpenStatementsKeepCodes(rows: Table, id: SessionId, o: OpenTask, identity: Identity, port: int)
    ensures OpenCodes(rows, rows, id, o) && OpenCodes(rows, SetRemoteIdentity(rows, id, identity), id, o)
    ensures OpenCodes(rows, SetTunnelIdentity(rows, id, port), id, o) && OpenCodes(rows, MarkReady(rows, id), id, o)
    ensures OpenCodes(rows, ClearTunnelIdentity(rows, id), id, o)
    ensures OpenCodes(rows, ClearRemoteIdentity(rows, id), id, o)
    ensures OpenCodes(rows, MarkError(rows, id, InternalError), id, o)
    ensures !o.phase.Preparing? ==> OpenCodes(rows, MarkError(rows, id, o.code), id, o)
  {
  }

  lemma GoesOnEffect(q: State, q': State, id: SessionId, o': OpenTask, c: Choice)
    requires id in q.opens && q'.tasks == q.tasks && q'.log == q.log && q'.next >= q.next
    requires q'.launched == if q.opens[id].phase.Preparing? && c.asked then q.launched + {id} else q.launched
    requires q'.opens == q.opens[id := o'] && o'.phase != Preparing
    requires o'.code == q.opens[id].code || !IsPreRemoteFailure(o'.code)
             || (q.opens[id].phase.Preparing? && !c.asked)
    requires OpenCodes(q.rows, q'.rows, id, q.opens[id])
    ensures OpenEffects(q, q', id, c)
  {
    hide OpenCodes, IsPreRemoteFailure;
  }

  lemma EndOpenEffect(q: State, id: SessionId, c: Choice)
    requires id in q.opens && !q.opens[id].phase.Preparing?
    ensures OpenEffects(q, EndOpen(q, id), id, c)
  {
    hide OpenCodes;
    OpenStatementsKeepCodes(q.rows, id, q.opens[id], NO_IDENTITY, 0);
  }

  lemma FailOpenEffect(q: State, q1: State, id: SessionId, c: Choice, code: ErrorCode)
    requires id in q.opens && q1 == q.(tunnels := q1.tunnels, next := q1.next, launched := q1.launched)
    requires q1.next >= q.next
    requires q1.launched == if q.opens[id].phase.Preparing? && c.asked then q.launched + {id} else q.launched
    requires !IsPreRemoteFailure(code) || (q.opens[id].phase.Preparing? && !c.asked)
    ensures OpenEffects(q, FailOpen(q1, id, q.opens[id], c, code), id, c)
  {
    hide OpenCodes;
    OpenStatementsKeepCodes(q.rows, id, q.opens[id], NO_IDENTITY, 0);
    var q' := FailOpen(q1, id, q.opens[id], c, code);
    GoesOnEffect(q, q', id, q'.opens[id], c);
  }

  lemma OpenForwardEffect(q: State, id: SessionId, c: Choice)
    requires id in q.opens
    requires
      var phase := q.opens[id].phase;
      phase.Preparing? || phase.Identifying? || phase.Forwarding? || phase.Verifying?
    ensures OpenEffects(q, StepOpen(q, id, c), id, c)
  {
    hide OpenEffects, OpenCodes, FailOpen, SetRemoteIdentity, SetTunnelIdentity, MarkReady;
    var o, q' := q.opens[id], StepOpen(q, id, c);
    OpenStatementsKeepCodes(q.rows, id, o, c.started.Persisted(), c.port);
    if o.phase.Preparing? {
      var tried := if c.asked then q.(launched := q.launched + {id}) else q;
      if c.cancelled || !c.connected || !c.asked {
        FailOpenEffect(q, tried, id, c, if c.asked then c.later else c.code);
      } else {
        GoesOnEffect(q, q', id, o.(started := true, phase := Identifying), c);
      }
    } else if o.phase.Identifying? {
      if c.cancelled { FailOpenEffect(q, q, id, c, InternalError); }
      else { GoesOnEffect(q, q', id, o.(persisted := true, phase := Forwarding), c); }
    } else if c.cancelled || !c.healthy {
      FailOpenEffect(q, q, id, c, c.later);
    } else {
      GoesOnEffect(q, q', id, o.(phase := if o.phase.Forwarding? then Forwarded(c.port) else Publishing), c);
    }
  }

  lemma OpenInstallsEffect(q: State, id: SessionId, c: Choice)
    requires id in q.opens && q.opens[id].phase.Forwarded?
    ensures OpenEffects(q, StepOpen(q, id, c), id, c)
  {
    hide OpenEffects, OpenCodes, FailOpen;
    var o, q' := q.opens[id], StepOpen(q, id, c);
    var installed := q.(tunnels := q.tunnels[id := q.next], next := q.next + 1);
    OpenStatementsKeepCodes(q.rows, id, o, NO_IDENTITY, 0);
    FailOpenEffect(q, q, id, c, InternalError);
    FailOpenEffect(q, installed, id, c, InternalError);
    if !c.cancelled && id !in q.registry {
      GoesOnEffect(q, q', id, o.(published := true, phase := Verifying), c);
    }
  }

  lemma OpenPublishEffect(q: State, id: SessionId, c: Choice)
    requires id in q.opens
    requires var phase := q.opens[id].phase; phase.Publishing? || phase.Reading? || phase.Judging?
    ensures OpenEffects(q, StepOpen(q, id, c), id, c)
  {
    hide OpenEffects, OpenCodes, EndOpen, Lookup;
    var o, q' := q.opens[id], StepOpen(q, id, c);
    OpenStatementsKeepCodes(q.rows, id, o, NO_IDENTITY, 0);
    EndOpenEffect(q, id, c);
    if o.phase.Publishing? {
      GoesOnEffect(q, q', id, q'.opens[id], c);
    } else if o.phase.Reading? {
      if c.cancelled || o.phase.found.None? { GoesOnEffect(q, q', id, q'.opens[id], c); }
    } else if !(c.cancelled || (o.phase.found.Some? && o.phase.found.value.state == Ready)) {
      GoesOnEffect(q, q', id, q'.opens[id], c);
    }
  }

  lemma OpenCleansEffect(q: State, id: SessionId, c: Choice)
    requires id in q.opens
    requires var phase := q.opens[id].phase; phase.Releasing? || phase.StoppingRemote? || phase.ClosingChain?
    ensures OpenEffects(q, StepOpen(q, id, c), id, c)
  {
    hide OpenEffects, OpenCodes, EndOpen, Lookup, ClearTunnelIdentity, ClearRemoteIdentity;
    var o, q' := q.opens[id], StepOpen(q, id, c);
    OpenStatementsKeepCodes(q.rows, id, o, NO_IDENTITY, 0);
    EndOpenEffect(q, id, c);
    if !c.cancelled {
      if o.phase.Releasing? { GoesOnEffect(q, q', id, o.(phase := StoppingRemote), c); }
      else if o.phase.StoppingRemote? { GoesOnEffect(q, q', id, o.(phase := ClosingChain), c); }
      else { GoesOnEffect(q, q', id, o.(phase := Rereading(Lookup(q.rows, id))), c); }
    }
  }

  lemma MarkingEffect(q: State, id: SessionId, c: Choice, phase: OpenPhase)
    requires id in q.opens && !q.opens[id].phase.Preparing? && phase != Preparing
    ensures var o := q.opens[id];
      && OpenEffects(q, At(q, id, o, phase), id, c)
      && OpenEffects(q, At(q, id, o, phase).(rows := MarkError(q.rows, id, o.code)), id, c)
  {
    hide OpenEffects, OpenCodes, MarkError;
    var o := q.opens[id];
    OpenStatementsKeepCodes(q.rows, id, o, NO_IDENTITY, 0);
    GoesOnEffect(q, At(q, id, o, phase), id, o.(phase := phase), c);
    GoesOnEffect(q, At(q, id, o, phase).(rows := MarkError(q.rows, id, o.code)), id, o.(phase := phase), c);
  }

  lemma RereadEffect(q: State, id: SessionId, c: Choice)
    requires id in q.opens && q.opens[id].phase.Rereading?
    ensures OpenEffects(q, StepOpen(q, id, c), id, c)
  {
    hide OpenEffects, EndOpen, Lookup, MarkError, At;
    EndOpenEffect(q, id, c);
    MarkingEffect(q, id, c, Marking);
    MarkingEffect(q, id, c, Late(Lookup(q.rows, id)));
  }

  lemma MarkedEffect(q: State, id: SessionId, c: Choice)
    requires id in q.opens && (q.opens[id].phase.Marking? || q.opens[id].phase.LateMarking?)
    ensures OpenEffects(q, StepOpen(q, id, c), id, c)
  {
    hide OpenEffects, OpenCodes, EndOpen, Lookup;
    var o := q.opens[id];
    OpenStatementsKeepCodes(q.rows, id, o, NO_IDENTITY, 0);
    EndOpenEffect(q, id, c);
    if o.phase.Marking? && o.crashed && !c.cancelled {
      GoesOnEffect(q, StepOpen(q, id, c), id, o.(phase := Late(Lookup(q.rows, id))), c);
    }
  }

  lemma LateEffect(q: State, id: SessionId, c: Choice)
    requires id in q.opens && q.opens[id].phase.Late?
    ensures OpenEffects(q, StepOpen(q, id, c), id, c)
  {
    hide OpenEffects, OpenCodes, EndOpen, MarkError;
    var o := q.opens[id];
    OpenStatementsKeepCodes(q.rows, id, o, NO_IDENTITY, 0);
    EndOpenEffect(q, id, c);
    if !c.cancelled && o.phase.found.Some? && o.phase.found.value.state == Starting {
      GoesOnEffect(q, StepOpen(q, id, c), id, o.(phase := LateMarking), c);
    }
  }

  lemma OpenHasEffects(q: State, id: SessionId, c: Choice)
    requires id in q.opens
    ensures OpenEffects(q, StepOpen(q, id, c), id, c)
  {
    hide OpenEffects, StepOpen;
    match q.opens[id].phase
    case Preparing => OpenForwardEffect(q, id, c);
    case Identifying => OpenForwardEffect(q, id, c);
    case Forwarding => OpenForwardEffect(q, id, c);
    case Forwarded(_) => OpenInstallsEffect(q, id, c);
    case Verifying => OpenForwardEffect(q, id, c);
    case Publishing => OpenPublishEffect(q, id, c);
    case Reading(_) => OpenPublishEffect(q, id, c);
    case Judging(_) => OpenPublishEffect(q, id, c);
    case Releasing(_) => OpenCleansEffect(q, id, c);
    case StoppingRemote => OpenCleansEffect(q, id, c);
    case ClosingChain => OpenCleansEffect(q, id, c);
    case Rereading(_) => RereadEffect(q, id, c);
    case Late(_) => LateEffect(q, id, c);
    case Marking => MarkedEffect(q, id, c);
    case LateMarking => MarkedEffect(q, id, c);
  }
}
