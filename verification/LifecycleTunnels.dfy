/** _tunnels is the one table that can outlive the reservation, and whose entries can replace each other:
    exactly how. */
module LifecycleTunnels {
  import opened Wrappers
  import opened Records
  import opened Database
  import opened Lifecycle
  import opened LifecycleInvariant
  import opened LifecycleSteps
  import opened LifecycleTheorems
  import opened LifecycleSafety

  // ---- the steps that store a tunnel or release a slot --------------------

  /** A closing task puts back a chain it could not close. */
  ghost predicate PutsBack(task: Task, c: Choice) {
    || (task.Shut? && task.at.ShutClosed? && task.at.retain && !task.caller.Forced? && !c.cancelled)
    || (task.RecoverInspect? && !c.closed)
    || (task.ExitClosing? && !c.closed && !c.cancelled)
  }

  /** The forward of an attempt whose chain opened is up. */
  ghost predicate Reconnects(row: Row, c: Choice) {
    c.connected && IdentityFromInspection(row, c.inspection).Ok? && c.healthy
  }

  /** A reattachment between begin and complete, or past complete and about to install. */
  ghost predicate Pending(task: Task) {
    task.Attach? && (task.step == AttachBegin(true) || task.step.AttachComplete?)
  }

  /** A reattachment installs its tunnel, or keeps it because closing it failed. */
  ghost predicate AttachStores(task: Task, c: Choice) {
    && Pending(task)
    && (!c.closed || (task.step.AttachComplete? && task.step.completed && !c.cancelled
                      && (c.timely || task.on.ByRecovery?)))
    && (task.step.AttachBegin? && !c.cancelled ==> !Reconnects(task.row, c))
  }

  /** A start task installs its tunnel, or keeps it because closing it failed. */
  ghost predicate OpenStores(q: State, id: SessionId, o: OpenTask, c: Choice) {
    && !c.cancelled
    && ((o.phase.Forwarded? && id !in q.registry) || (o.phase.ClosingChain? && !c.closed))
  }

  /** A task that has deleted the row, or found it gone, releases the slot. */
  ghost predicate Releases(task: Task, c: Choice) {
    || (task.Shut? && (task.at.ShutDelete? || task.at == ShutRead(None)) && !c.cancelled)
    || task.RecoverDelete?
  }

  datatype Kept = Kept(id: SessionId, number: nat)

  /** The tunnel a step stores: whose, and its number. */
  ghost function Stored(q: State, e: Event): Option<Kept> {
    match e
    case Turn(t, c) => if t in q.tasks then StoredByTask(q, q.tasks[t], c) else None
    case OpenTurn(id, c) =>
      if id in q.opens && OpenStores(q, id, q.opens[id], c) then Some(Kept(id, q.next)) else None
    case _ => None
  }

  ghost function StoredByTask(q: State, task: Task, c: Choice): Option<Kept> {
    if task.ExitClosing? && PutsBack(task, c) then Some(Kept(task.id, task.tunnel))
    else if PutsBack(task, c) || AttachStores(task, c) then Some(Kept(task.id, q.next))
    else None
  }

  ghost function Freed(q: State, e: Event): Option<SessionId> {
    if e.Turn? && e.task in q.tasks && Releases(q.tasks[e.task], e.answers) then Some(q.tasks[e.task].id) else None
  }

  // ---- what a step does to tunnels, slots and the tasks that know a tunnel ----

  ghost predicate KnowsTunnel(task: Task) {
    task.ExitRead? || task.ExitLock? || task.ExitCheck? || task.ExitClosing?
  }

  /** What holds of a task's own tunnel: it has its number, is not in the table while it is being closed, and
      the table has none while a retry or startup recovery reattaches. */
  ghost predicate Fits(q: State, task: Task) {
    && (KnowsTunnel(task) ==> task.tunnel < q.next)
    && (task.ExitClosing? && task.id in q.tunnels ==> q.tunnels[task.id] != task.tunnel)
    && (Pending(task) && !task.on.ByExit? ==> task.id !in q.tunnels)
  }

  /** The acting task fits, and so do the tasks it spawned; the others have not moved. */
  ghost predicate NewFit(q: State, q': State, a: Actor) {
    forall t :: t in q'.tasks ==>
      (t in q.tasks && a != ByTask(t) && q'.tasks[t] == q.tasks[t]) || Fits(q', q'.tasks[t])
  }

  ghost predicate OnlyDrops(tunnels: map<SessionId, nat>, tunnels': map<SessionId, nat>) {
    forall id :: id in tunnels' ==> id in tunnels && tunnels'[id] == tunnels[id]
  }

  ghost predicate Moved(q: State, q': State, a: Actor, stored: Option<Kept>, freed: Option<SessionId>) {
    && (if stored.Some? then q'.tunnels == q.tunnels[stored.value.id := stored.value.number]
        else OnlyDrops(q.tunnels, q'.tunnels))
    && (if freed.Some? then q'.owned == q.owned - {freed.value} && q'.tunnels == q.tunnels else q.owned <= q'.owned)
    && (stored.Some? ==> q'.owned == q.owned)
    && q'.next >= q.next && (stored.Some? && stored.value.number == q.next ==> q'.next > q.next)
    && (q'.watched == q.watched || (q'.next > q.next && q'.watched.Keys == q.watched.Keys + {q.next}))
    && NewFit(q, q', a)
  }

  /** No tunnel, slot or watcher changes. */
  ghost predicate SameSlots(q: State, q': State) {
    q'.tunnels == q.tunnels && q'.owned == q.owned && q'.watched == q.watched && q'.next >= q.next
  }

  ghost predicate Plain(task: Task) {
    !KnowsTunnel(task) && !Pending(task)
  }

  /** Besides, what task `t` and those it spawned go on with is plain. */
  ghost predicate Idles(q: State, q': State, t: TaskId) {
    && SameSlots(q, q')
    && forall u :: u in q'.tasks ==> (u in q.tasks && u != t && q'.tasks[u] == q.tasks[u]) || Plain(q'.tasks[u])
  }

  lemma IdlesMoves(q: State, q': State, t: TaskId)
    requires Idles(q, q', t)
    ensures Moved(q, q', ByTask(t), None, None)
  {
    hide Pending;
  }

  lemma PutSlots(q: State, t: TaskId, task: Task, alias: Alias)
    requires Plain(task)
    ensures Idles(q, Put(q, t, task), t) && Idles(q, Leave(q, t, alias), t)
    ensures Idles(q, Put(Unlock(q, alias), t, task), t) && Idles(q, Done(q, t), t)
  {
    hide Plain;
  }

  lemma TakeSlots(q: State, t: TaskId, alias: Alias, task: Task)
    requires Plain(task)
    ensures Idles(q, Take(q, t, alias, task), t) && Idles(q, Done(q, t), t)
  {
    hide Plain;
  }

  // ---- requests ----------------------------------------------------------

  lemma OpenReadSlots(q: State, t: TaskId, alias: Alias, found: bool, c: Choice)
    ensures Idles(q, StepOpenRead(q, t, alias, found, c), t)
  {
    hide Insert, AliasTaken, Full, Put, Leave;
    PutSlots(q, t, OpenInsert(alias, q.next), alias);
  }

  lemma OpenInsertMoves(q: State, t: TaskId, alias: Alias, id: SessionId, c: Choice)
    ensures Moved(q, StepOpenInsert(q, t, alias, id, c), ByTask(t), None, None)
  {
    hide Full, Moved;
    if c.cancelled || Full(q) {
      hide Delete, Put, Leave, Idles;
      PutSlots(q, t, OpenRollback(alias), alias);
      OpenRollsBackSlots(q, t, alias, id);
      IdlesMoves(q, StepOpenInsert(q, t, alias, id, c), t);
    } else {
      OpenAcquires(q, t, alias, id, c);
    }
  }

  lemma OpenRollsBackSlots(q: State, t: TaskId, alias: Alias, id: SessionId)
    ensures Idles(q, Put(q, t, OpenRollback(alias)).(rows := Delete(q.rows, id), log := q.log + [RolledBack(id)]), t)
  {
    hide Put, Delete;
    PutSlots(q, t, OpenRollback(alias), alias);
  }

  lemma OpenAcquires(q: State, t: TaskId, alias: Alias, id: SessionId, c: Choice)
    requires !c.cancelled && !Full(q)
    ensures Moved(q, StepOpenInsert(q, t, alias, id, c), ByTask(t), None, None)
  {
    hide Full, Fits;
  }

  lemma OpenMoves(q: State, t: TaskId, task: Task, c: Choice)
    requires t in q.tasks && q.tasks[t] == task && IsOpen(task)
    ensures Moved(q, StepTask(q, t, c), ByTask(t), None, None)
  {
    hide StepOpenRead, StepOpenInsert, AliasTaken, Take, Done, Leave, Moved, Idles;
    match task
    case OpenLock(alias) =>
      TakeSlots(q, t, alias, OpenRead(alias, AliasTaken(q.rows, alias)));
      SameIdles(q, t);
      IdlesMoves(q, StepTask(q, t, c), t);
    case OpenRead(alias, found) =>
      OpenReadSlots(q, t, alias, found, c);
      IdlesMoves(q, StepTask(q, t, c), t);
    case OpenInsert(alias, id) =>
      OpenInsertMoves(q, t, alias, id, c);
    case OpenRollback(alias) =>
      PutSlots(q, t, task, alias);
      IdlesMoves(q, StepTask(q, t, c), t);
  }

  /** A task that knows no tunnel waits. */
  lemma SameIdles(q: State, t: TaskId)
    requires t in q.tasks && Plain(q.tasks[t])
    ensures Idles(q, q, t)
  {
    hide Plain;
  }

  lemma ShutStartSlots(q: State, t: TaskId, alias: Alias, on: ShutFor, id: SessionId)
    ensures Idles(q, StartShut(q, t, alias, on, id), t)
  {
    hide Lookup, Put;
    PutSlots(q, t, Shut(alias, on, id, q.next, ShutRead(Lookup(q.rows, id))), alias);
  }

  lemma CloseSpawnsSlots(q: State, t: TaskId, alias: Alias, id: SessionId)
    ensures Idles(q, Spawn(Leave(q, t, alias), Shut(alias, Spawned, id, q.next, ShutStart)), t)
  {
  }

  lemma CloseStartSlots(q: State, t: TaskId, alias: Alias, force: bool, id: SessionId)
    ensures Idles(q, StartClose(q, t, alias, force, id), t)
  {
    hide StartShut, Leave, Spawn, Idles;
    ShutStartSlots(q, t, alias, Forced, id);
    CloseSpawnsSlots(q, t, alias, id);
  }

  ghost function Quieted(q: State, id: SessionId): State {
    q.(timers := q.timers - {id}, registry := q.registry - {id})
  }

  /** Withdrawing timer and port changes none of this. */
  lemma QuietedIdles(q: State, id: SessionId, q': State, t: TaskId)
    requires Idles(Quieted(q, id), q', t)
    ensures Idles(q, q', t)
  {
    hide Plain;
  }

  lemma CloseSettleSlots(q: State, t: TaskId, alias: Alias, force: bool, id: SessionId)
    ensures var s := Put(q, t, CloseSettle(alias, force, id));
      Idles(q, s.(starts := q.starts - {id}, settling := q.settling[id := t]), t)
  {
    hide Put;
    PutSlots(q, t, CloseSettle(alias, force, id), alias);
  }

  lemma CloseMarkSlots(q: State, t: TaskId, alias: Alias, force: bool, id: SessionId, c: Choice)
    ensures Idles(q, StepCloseMark(q, t, alias, force, id, c), t)
  {
    hide StartClose, Put, Leave, Idles;
    var q' := StepCloseMark(q, t, alias, force, id, c);
    if c.cancelled {
      PutSlots(q, t, OpenLock(alias), alias);
    } else {
      CloseStartSlots(Quieted(q, id), t, alias, force, id);
      CloseSettleSlots(Quieted(q, id), t, alias, force, id);
      QuietedIdles(q, id, q', t);
    }
  }

  lemma CloseReadSlots(q: State, t: TaskId, alias: Alias, force: bool, seen: Option<SessionId>, c: Choice)
    ensures Idles(q, StepCloseRead(q, t, alias, force, seen, c), t)
  {
    hide MarkStopping, Put, Leave;
    PutSlots(q, t, CloseMark(alias, force, if seen.Some? then seen.value else 0), alias);
  }

  lemma CloseSlots(q: State, t: TaskId, task: Task, c: Choice)
    requires t in q.tasks && q.tasks[t] == task && IsClose(task)
    ensures Idles(q, StepTask(q, t, c), t)
  {
    hide FindByAlias, StartClose, StepCloseRead, StepCloseMark, Done, Take, Idles;
    SameIdles(q, t);
    match task
    case CloseLock(alias, force) => TakeSlots(q, t, alias, CloseRead(alias, force, FindByAlias(q.rows, alias)));
    case CloseRead(alias, force, seen) => CloseReadSlots(q, t, alias, force, seen, c);
    case CloseMark(alias, force, id) => CloseMarkSlots(q, t, alias, force, id, c);
    case CloseSettle(alias, force, id) => CloseStartSlots(q, t, alias, force, id);
  }

  // ---- reattachments -----------------------------------------------------

  lemma RecoveryDeleteSlots(q: State, t: TaskId, alias: Alias, id: SessionId, op: nat, todo: seq<Found>)
    ensures var s := Put(q, t, RecoverDelete(alias, id, todo)).(
        rows := Delete(q.rows, id), log := q.log + [Deleted(op, id, false)]);
      Idles(q, s, t)
  {
    hide Delete, Put;
    PutSlots(q, t, RecoverDelete(alias, id, todo), alias);
  }

  lemma RecoveryPatchSlots(q: State, t: TaskId, task: Task, alias: Alias, rows: Table)
    requires Plain(task)
    ensures Idles(q, Put(q, t, task).(rows := rows), t)
  {
    hide Put, Plain;
    PutSlots(q, t, task, alias);
  }

  lemma RecoveryFailureSlots(
    q: State, t: TaskId, alias: Alias, todo: seq<Found>, id: SessionId, row: Row, op: nat, why: Option<Unavailable>,
    c: Choice)
    ensures Idles(q, AttachFailed(q, t, alias, ByRecovery(todo), id, row, op, why, c), t)
  {
    hide Delete, ClearRemoteIdentity, MarkError, Put, Unlock, Idles;
    RecoveryDeleteSlots(q, t, alias, id, op, todo);
    RecoveryPatchSlots(q, t, RecoverClear(alias, id, todo), alias, ClearRemoteIdentity(q.rows, id));
    RecoveryPatchSlots(q, t, RecoverMark(alias, id, todo), alias, MarkError(q.rows, id, RecoveryFailed));
    PutSlots(q, t, RecoverNext(todo), alias);
  }

  lemma FailureSlots(
    q: State, t: TaskId, alias: Alias, on: AttachFor, id: SessionId, row: Row, op: nat, why: Option<Unavailable>,
    c: Choice)
    ensures Idles(q, AttachFailed(q, t, alias, on, id, row, op, why, c), t)
  {
    hide Idles;
    if on.ByRecovery? {
      hide AttachFailed;
      RecoveryFailureSlots(q, t, alias, on.todo, id, row, op, why, c);
    } else {
      hide StartShut, Put, Unlock, Leave;
      ShutStartSlots(q, t, alias, Retrying, id);
      PutSlots(q, t, RetrySleep(alias, id, row), alias);
      PutSlots(q, t, ExitWait(alias, id), alias);
      PutSlots(q, t, ExitGiveUp(alias, id), alias);
    }
  }

  /** A reattachment begins only without a tunnel in the table. */
  lemma BeginFits(q: State, t: TaskId, alias: Alias, on: AttachFor, id: SessionId, row: Row)
    requires id !in q.tunnels
    ensures var task := Attach(alias, on, id, row, q.next, AttachBegin(Recoverable(q.rows, id)));
      Moved(q, Put(q, t, task).(rows := BeginRecovery(q.rows, id), next := q.next + 1), ByTask(t), None, None)
  {
    hide BeginRecovery, Recoverable;
  }

  lemma AttachStarts(q: State, t: TaskId, alias: Alias, on: AttachFor, id: SessionId, row: Row, c: Choice)
    ensures Moved(q, StartAttach(q, t, alias, on, id, row, c), ByTask(t), None, None)
  {
    hide BeginRecovery, Recoverable, AttachFailed, Put, Moved;
    if id in q.tunnels {
      FailureSlots(q, t, alias, on, id, row, q.next, None, c);
      IdlesMoves(q, StartAttach(q, t, alias, on, id, row, c), t);
    } else {
      BeginFits(q, t, alias, on, id, row);
    }
  }

  /** Withdrawing timer and port, or taking a record up, changes none of this. */
  lemma SameMoves(q: State, q1: State, q': State, t: TaskId, stored: Option<Kept>)
    requires q1.tunnels == q.tunnels && q1.owned == q.owned && q1.watched == q.watched && q1.next == q.next
    requires q1.tasks == q.tasks && Moved(q1, q', ByTask(t), stored, None)
    ensures Moved(q, q', ByTask(t), stored, None)
  {
    hide Fits;
  }

  lemma RetryStarts(q: State, t: TaskId, alias: Alias, id: SessionId, row: Row, c: Choice)
    ensures Moved(q, StartRetry(q, t, alias, id, row, c), ByTask(t), None, None)
  {
    hide StartAttach, StartShut, CanCloseWithoutInspection, Moved, Idles;
    var quiet, q' := Quieted(q, id), StartRetry(q, t, alias, id, row, c);
    AttachStarts(quiet, t, alias, ByRetry, id, row, c);
    ShutStartSlots(quiet, t, alias, Retrying, id);
    IdlesMoves(quiet, StartShut(quiet, t, alias, Retrying, id), t);
    SameMoves(q, quiet, q', t, None);
  }

  lemma RetrySettleSlots(q: State, t: TaskId, alias: Alias, id: SessionId, row: Row)
    ensures var s := Put(q, t, RetrySettle(alias, id, row));
      Moved(q, s.(starts := q.starts - {id}, settling := q.settling[id := t]), ByTask(t), None, None)
  {
    hide Put;
    PutSlots(q, t, RetrySettle(alias, id, row), alias);
  }

  lemma RetryReadMoves(q: State, t: TaskId, alias: Alias, seen: Option<Found>, c: Choice)
    ensures Moved(q, StepRetryRead(q, t, alias, seen, c), ByTask(t), None, None)
  {
    hide StartRetry, Put, Leave, Moved, Idles;
    if c.cancelled || seen.None? || seen.value.row.state != Error {
      PutSlots(q, t, OpenLock(alias), alias);
      IdlesMoves(q, Leave(q, t, alias), t);
    } else {
      RetryStarts(q, t, alias, seen.value.id, seen.value.row, c);
      RetrySettleSlots(q, t, alias, seen.value.id, seen.value.row);
    }
  }

  lemma RetryLockSlots(q: State, t: TaskId, alias: Alias, c: Choice)
    requires t in q.tasks && q.tasks[t] == RetryLock(alias)
    ensures Idles(q, StepRetryLock(q, t, alias, c), t)
  {
    hide FindByAlias, Take, Done, Idles;
    var found := FindByAlias(q.rows, alias);
    var seen := if found.Some? then Some(Found(found.value, q.rows[found.value])) else None;
    TakeSlots(q, t, alias, RetryRead(alias, seen));
    SameIdles(q, t);
  }

  lemma RetrySettlesMoves(q: State, t: TaskId, alias: Alias, id: SessionId, row: Row, c: Choice)
    requires t in q.tasks && q.tasks[t] == RetrySettle(alias, id, row)
    ensures Moved(q, StepRetrySettle(q, t, alias, id, row, c), ByTask(t), None, None)
  {
    hide StartRetry, Moved, Idles;
    RetryStarts(q, t, alias, id, row, c);
    SameIdles(q, t);
    IdlesMoves(q, q, t);
  }

  lemma RetrySleepMoves(q: State, t: TaskId, alias: Alias, id: SessionId, row: Row, c: Choice)
    ensures Moved(q, StepRetrySleep(q, t, alias, id, row, c), ByTask(t), None, None)
  {
    hide StartAttach, Leave, Moved, Idles;
    AttachStarts(q, t, alias, ByRetry, id, row, c);
    PutSlots(q, t, OpenLock(alias), alias);
    IdlesMoves(q, Leave(q, t, alias), t);
  }

  lemma RetryCheckSlots(q: State, t: TaskId, alias: Alias, gone: bool, c: Choice)
    ensures Idles(q, StepRetryCheck(q, t, alias, gone, c), t)
  {
    hide Leave, Put, Unlock, Idles;
    PutSlots(q, t, OpenLock(alias), alias);
  }

  lemma RetryMoves(q: State, t: TaskId, task: Task, c: Choice)
    requires t in q.tasks && q.tasks[t] == task && IsRetry(task)
    ensures Moved(q, StepTask(q, t, c), ByTask(t), None, None)
  {
    hide StepRetryLock, StepRetryRead, StepRetrySettle, StepRetrySleep, StepRetryCheck, Moved, Idles;
    match task
    case RetryLock(alias) =>
      RetryLockSlots(q, t, alias, c);
      IdlesMoves(q, StepTask(q, t, c), t);
    case RetryRead(alias, seen) => RetryReadMoves(q, t, alias, seen, c);
    case RetrySettle(alias, id, row) => RetrySettlesMoves(q, t, alias, id, row, c);
    case RetrySleep(alias, id, row) => RetrySleepMoves(q, t, alias, id, row, c);
    case RetryCheck(alias, gone) =>
      RetryCheckSlots(q, t, alias, gone, c);
      IdlesMoves(q, StepTask(q, t, c), t);
  }

  ghost function KeptUnless(closed: bool, id: SessionId, number: nat): Option<Kept> {
    if closed then None else Some(Kept(id, number))
  }

  lemma RetainMoves(q: State, id: SessionId, closed: bool, q': State, t: TaskId)
    requires Idles(Retain(q, id, closed), q', t)
    ensures Moved(q, q', ByTask(t), KeptUnless(closed, id, q.next), None)
  {
    hide Pending;
  }

  lemma GivingUpMoves(
    q: State, t: TaskId, alias: Alias, on: AttachFor, id: SessionId, row: Row, op: nat, why: Option<Unavailable>,
    c: Choice)
    ensures Moved(q, AttachGivesUp(q, t, alias, on, id, row, op, why, c), ByTask(t),
                  KeptUnless(c.closed, id, q.next), None)
  {
    hide AttachFailed, Retain, Idles, Moved;
    var kept := Retain(q, id, c.closed);
    FailureSlots(kept, t, alias, on, id, row, op, if c.closed then why else None, c);
    RetainMoves(q, id, c.closed, AttachGivesUp(q, t, alias, on, id, row, op, why, c), t);
  }

  lemma AbsentMoves(q: State, t: TaskId, alias: Alias, on: AttachFor, id: SessionId, row: Row, op: nat, c: Choice)
    ensures
      var asked := q.(log := q.log + [Confirmed(op, id), Removing(op, id)]);
      var why := if c.removed then Some(Absent) else None;
      Moved(q, AttachGivesUp(asked, t, alias, on, id, row, op, why, c), ByTask(t),
            KeptUnless(c.closed, id, q.next), None)
  {
    hide AttachGivesUp, Moved;
    var asked := q.(log := q.log + [Confirmed(op, id), Removing(op, id)]);
    var why := if c.removed then Some(Absent) else None;
    GivingUpMoves(asked, t, alias, on, id, row, op, why, c);
    SameMoves(q, asked, AttachGivesUp(asked, t, alias, on, id, row, op, why, c), t, KeptUnless(c.closed, id, q.next));
  }

  lemma DroppingMoves(q: State, t: TaskId, alias: Alias, id: SessionId, closed: bool)
    ensures Moved(q, Leave(Retain(q, id, closed), t, alias), ByTask(t), KeptUnless(closed, id, q.next), None)
  {
    hide Retain, Leave, Idles, Moved;
    PutSlots(Retain(q, id, closed), t, OpenLock(alias), alias);
    RetainMoves(q, id, closed, Leave(Retain(q, id, closed), t, alias), t);
  }

  lemma ReconnectMoves(
    q: State, t: TaskId, alias: Alias, on: AttachFor, id: SessionId, row: Row, op: nat, rows: Table, port: int,
    completed: bool)
    requires on.ByExit? || id !in q.tunnels
    ensures Moved(q, Put(q, t, Attach(alias, on, id, row, op, AttachComplete(completed, port))).(rows := rows),
                  ByTask(t), None, None)
  {
  }

  lemma BeginMoves(
    q: State, t: TaskId, alias: Alias, on: AttachFor, id: SessionId, row: Row, op: nat, eligible: bool, c: Choice)
    requires var task := Attach(alias, on, id, row, op, AttachBegin(eligible));
      t in q.tasks && q.tasks[t] == task && Fits(q, task)
    ensures var task := Attach(alias, on, id, row, op, AttachBegin(eligible));
      Moved(q, StepAttach(q, t, alias, on, id, row, op, AttachBegin(eligible), c), ByTask(t),
            StoredByTask(q, task, c), None)
  {
    hide AttachFailed, AttachGivesUp, Retain, Leave, Put, CompleteRecovery, Recoverable, IdentityFromInspection;
    hide Moved, Idles;
    if c.cancelled {
      DroppingMoves(q, t, alias, id, !eligible || c.closed);
    } else if !eligible {
      FailureSlots(q, t, alias, on, id, row, op, Some(NotEligible), c);
      IdlesMoves(q, AttachFailed(q, t, alias, on, id, row, op, Some(NotEligible), c), t);
    } else if !c.connected {
      GivingUpMoves(q, t, alias, on, id, row, op, None, c);
    } else {
      match IdentityFromInspection(row, c.inspection)
      case Err(why) =>
        if why == Absent {
          AbsentMoves(q, t, alias, on, id, row, op, c);
        } else {
          GivingUpMoves(q, t, alias, on, id, row, op, Some(why), c);
        }
      case Ok(found) =>
        if c.healthy {
          ReconnectMoves(q, t, alias, on, id, row, op, CompleteRecovery(q.rows, id, found, c.port), c.port,
                         Recoverable(q.rows, id));
        } else {
          GivingUpMoves(q, t, alias, on, id, row, op, None, c);
        }
    }
  }

  /** The attempt's tunnel is in the table; its port may still be refused. */
  lemma InstalledMoves(q: State, q': State, t: TaskId, id: SessionId)
    requires Idles(q.(tunnels := q.tunnels[id := q.next], next := q.next + 1), q', t)
    ensures Moved(q, q', ByTask(t), Some(Kept(id, q.next)), None)
  {
    hide Pending;
  }

  lemma PublishedMoves(
    q: State, t: TaskId, alias: Alias, on: AttachFor, id: SessionId, row: Row, op: nat, port: int)
    ensures
      var installed := q.(tunnels := q.tunnels[id := q.next], next := q.next + 1);
      var q' := Put(installed, t, Attach(alias, on, id, row, op, AttachRead(id in q.rows))).(
        registry := q.registry[id := port], watched := q.watched[q.next := id]);
      Moved(q, q', ByTask(t), Some(Kept(id, q.next)), None)
  {
  }

  lemma InstallMoves(
    q: State, t: TaskId, alias: Alias, on: AttachFor, id: SessionId, row: Row, op: nat, port: int, c: Choice)
    requires !c.cancelled && (c.timely || on.ByRecovery?)
    ensures Moved(q, StepAttach(q, t, alias, on, id, row, op, AttachComplete(true, port), c), ByTask(t),
                  Some(Kept(id, q.next)), None)
  {
    hide AttachFailed, Put, Moved, Idles;
    if id in q.registry {
      var installed := q.(tunnels := q.tunnels[id := q.next], next := q.next + 1);
      FailureSlots(installed, t, alias, on, id, row, op, None, c);
      InstalledMoves(q, AttachFailed(installed, t, alias, on, id, row, op, None, c), t, id);
    } else {
      PublishedMoves(q, t, alias, on, id, row, op, port);
    }
  }

  lemma CompleteMoves(
    q: State, t: TaskId, alias: Alias, on: AttachFor, id: SessionId, row: Row, op: nat, completed: bool, port: int,
    c: Choice)
    ensures var task := Attach(alias, on, id, row, op, AttachComplete(completed, port));
      Moved(q, StepAttach(q, t, alias, on, id, row, op, AttachComplete(completed, port), c), ByTask(t),
            StoredByTask(q, task, c), None)
  {
    hide Moved;
    if !c.cancelled && (c.timely || on.ByRecovery?) && completed {
      hide StepAttach;
      InstallMoves(q, t, alias, on, id, row, op, port, c);
    } else {
      hide StepAttach, StoredByTask;
      NotCompletedMoves(q, t, alias, on, id, row, op, completed, port, c);
    }
  }

  lemma NotCompletedMoves(
    q: State, t: TaskId, alias: Alias, on: AttachFor, id: SessionId, row: Row, op: nat, completed: bool, port: int,
    c: Choice)
    requires c.cancelled || !(c.timely || on.ByRecovery?) || !completed
    ensures var task := Attach(alias, on, id, row, op, AttachComplete(completed, port));
      Moved(q, StepAttach(q, t, alias, on, id, row, op, AttachComplete(completed, port), c), ByTask(t),
            StoredByTask(q, task, c), None)
  {
    hide Moved, AttachFailed, AttachGivesUp, Retain, Leave;
    DroppingMoves(q, t, alias, id, c.closed);
    GivingUpMoves(q, t, alias, on, id, row, op, None, c.(again := false));
    GivingUpMoves(q, t, alias, on, id, row, op, Some(NotEligible), c);
  }

  lemma AttachedSlots(q: State, t: TaskId, alias: Alias, on: AttachFor, id: SessionId, c: Choice)
    ensures Idles(q, Attached(q, t, alias, on, id, c), t)
  {
    hide Leave, Put, Unlock;
    PutSlots(q, t, RecoverNext(if on.ByRecovery? then on.todo else []), alias);
  }

  lemma ReadMoves(
    q: State, t: TaskId, alias: Alias, on: AttachFor, id: SessionId, row: Row, op: nat, found: bool, c: Choice)
    ensures Moved(q, StepAttach(q, t, alias, on, id, row, op, AttachRead(found), c), ByTask(t), None, None)
  {
    hide AttachFailed, Attached, Leave, Idles, Moved;
    FailureSlots(q, t, alias, on, id, row, op, None, c.(again := false));
    FailureSlots(q, t, alias, on, id, row, op, None, c);
    AttachedSlots(q, t, alias, on, id, c);
    PutSlots(q, t, OpenLock(alias), alias);
    IdlesMoves(q, StepAttach(q, t, alias, on, id, row, op, AttachRead(found), c), t);
  }

  lemma AttachMoves(q: State, t: TaskId, task: Task, c: Choice)
    requires t in q.tasks && q.tasks[t] == task && task.Attach? && Fits(q, task)
    ensures Moved(q, StepTask(q, t, c), ByTask(t), StoredByTask(q, task, c), None)
  {
    hide StepAttach, Moved, Fits;
    var Attach(alias, on, id, row, op, step) := task;
    match step
    case AttachBegin(eligible) => BeginMoves(q, t, alias, on, id, row, op, eligible, c);
    case AttachComplete(completed, port) => CompleteMoves(q, t, alias, on, id, row, op, completed, port, c);
    case AttachRead(found) => ReadMoves(q, t, alias, on, id, row, op, found, c);
  }

  // ---- start tasks -------------------------------------------------------

  /** A start task's step that stores no tunnel: at most it takes its own away. */
  ghost predicate StartsOn(q: State, q': State) {
    && OnlyDrops(q.tunnels, q'.tunnels) && q'.owned == q.owned && q'.watched == q.watched && q'.next >= q.next
    && q'.tasks == q.tasks
  }

  lemma StartsOnMoves(q: State, q': State, id: SessionId)
    requires StartsOn(q, q')
    ensures Moved(q, q', ByOpen(id), None, None)
  {
    hide Fits;
  }

  lemma AtSlots(q: State, id: SessionId, o: OpenTask, phase: OpenPhase)
    ensures StartsOn(q, At(q, id, o, phase)) && StartsOn(q, EndOpen(q, id)) && StartsOn(q, CleanUp(q, id, o))
    ensures At(q, id, o, phase).tunnels == q.tunnels && CleanUp(q, id, o).tunnels == q.tunnels - {id}
  {
  }

  lemma FailSlots(q: State, id: SessionId, o: OpenTask, c: Choice, code: ErrorCode)
    ensures StartsOn(q, FailOpen(q, id, o, c, code)) && FailOpen(q, id, o, c, code).tunnels == q.tunnels - {id}
  {
    AtSlots(q, id, Failing(o, c, code), Verifying);
  }

  lemma StartTaskForwards(q: State, id: SessionId, o: OpenTask, c: Choice)
    requires id in q.opens && q.opens[id] == o
    requires o.phase.Preparing? || o.phase.Identifying? || o.phase.Forwarding? || o.phase.Verifying?
    ensures StartsOn(q, StepOpen(q, id, c))
  {
    hide SetRemoteIdentity, SetTunnelIdentity, MarkReady, At, FailOpen;
    var tried := if c.asked then q.(launched := q.launched + {id}) else q;
    FailSlots(q, id, o, c, InternalError);
    FailSlots(q, id, o, c, c.later);
    FailSlots(tried, id, o, c, if c.asked then c.later else c.code);
    AtSlots(tried, id, o.(started := true), Identifying);
    AtSlots(q, id, o.(persisted := true), Forwarding);
    AtSlots(q, id, o, Forwarded(c.port));
    AtSlots(q, id, o, Publishing);
  }

  lemma StartTaskInstalls(q: State, id: SessionId, o: OpenTask, port: int, c: Choice)
    requires id in q.opens && q.opens[id] == o && o.phase == Forwarded(port)
    requires !c.cancelled && id !in q.registry
    ensures Moved(q, StepOpen(q, id, c), ByOpen(id), Some(Kept(id, q.next)), None)
  {
    hide At, CleanUp;
    var installed := q.(tunnels := q.tunnels[id := q.next], next := q.next + 1);
    AtSlots(installed, id, o.(published := true), Verifying);
  }

  lemma StartTaskCannotInstall(q: State, id: SessionId, o: OpenTask, port: int, c: Choice)
    requires id in q.opens && q.opens[id] == o && o.phase == Forwarded(port)
    requires c.cancelled || id in q.registry
    ensures StartsOn(q, StepOpen(q, id, c))
  {
    hide At, FailOpen;
    var installed := q.(tunnels := q.tunnels[id := q.next], next := q.next + 1);
    FailSlots(q, id, o, c, InternalError);
    FailSlots(installed, id, o, c, InternalError);
  }

  lemma StartTaskPublishes(q: State, id: SessionId, o: OpenTask, c: Choice)
    requires id in q.opens && q.opens[id] == o
    requires o.phase.Publishing? || o.phase.Reading? || o.phase.Judging?
    ensures StartsOn(q, StepOpen(q, id, c))
  {
    hide Lookup, CleanUp, At, EndOpen;
    var found := Lookup(q.rows, id);
    AtSlots(q, id, o, Judging(found));
    AtSlots(q, id, o, Reading(found));
    AtSlots(q, id, o.(crashed := !c.cancelled), Judging(found));
  }

  lemma StartTaskReleases(q: State, id: SessionId, o: OpenTask, c: Choice)
    requires id in q.opens && q.opens[id] == o && (o.phase.Releasing? || o.phase.StoppingRemote?)
    ensures StartsOn(q, StepOpen(q, id, c))
  {
    hide ClearTunnelIdentity, ClearRemoteIdentity, At, EndOpen;
    AtSlots(q, id, o, StoppingRemote);
    AtSlots(q, id, o, ClosingChain);
  }

  lemma RetainFieldsToo(q: State, id: SessionId)
    ensures Retain(q, id, true) == q
    ensures Retain(q, id, false) == q.(tunnels := q.tunnels[id := q.next], next := q.next + 1)
  {
  }

  lemma StartTaskRetains(q: State, id: SessionId, o: OpenTask, c: Choice)
    requires id in q.opens && q.opens[id] == o && o.phase.ClosingChain? && !c.cancelled
    ensures Moved(q, StepOpen(q, id, c), ByOpen(id), KeptUnless(c.closed, id, q.next), None)
  {
    hide Lookup, At, Retain, EndOpen;
    RetainFieldsToo(q, id);
    AtSlots(Retain(q, id, c.closed), id, o, Rereading(Lookup(q.rows, id)));
  }

  lemma StartTaskMarks(q: State, id: SessionId, o: OpenTask, c: Choice)
    requires id in q.opens && q.opens[id] == o
    requires o.phase.Rereading? || o.phase.Marking?
    ensures StartsOn(q, StepOpen(q, id, c))
  {
    hide Lookup, MarkError, At, EndOpen;
    AtSlots(q, id, o, Marking);
    AtSlots(q, id, o, Late(Lookup(q.rows, id)));
  }

  lemma StartTaskMarksLate(q: State, id: SessionId, o: OpenTask, c: Choice)
    requires id in q.opens && q.opens[id] == o && (o.phase.Late? || o.phase.LateMarking?)
    ensures StartsOn(q, StepOpen(q, id, c))
  {
    hide MarkError, At, EndOpen;
    AtSlots(q, id, o, LateMarking);
  }

  lemma StartTaskEnds(q: State, id: SessionId, o: OpenTask, c: Choice)
    requires id in q.opens && q.opens[id] == o && o.phase.ClosingChain? && c.cancelled
    ensures StartsOn(q, StepOpen(q, id, c))
  {
    AtSlots(q, id, o, o.phase);
  }

  lemma StartTaskMoves(q: State, id: SessionId, c: Choice)
    requires id in q.opens
    ensures Moved(q, StepOpen(q, id, c), ByOpen(id), Stored(q, OpenTurn(id, c)), None)
  {
    hide StepOpen, StartsOn, Moved;
    var o, q' := q.opens[id], StepOpen(q, id, c);
    match o.phase
    case Forwarded(port) =>
      if c.cancelled || id in q.registry {
        StartTaskCannotInstall(q, id, o, port, c);
        StartsOnMoves(q, q', id);
      } else {
        StartTaskInstalls(q, id, o, port, c);
      }
    case ClosingChain =>
      if c.cancelled {
        StartTaskEnds(q, id, o, c);
        StartsOnMoves(q, q', id);
      } else {
        StartTaskRetains(q, id, o, c);
      }
    case _ =>
      StartTaskGoesOn(q, id, o, c);
      StartsOnMoves(q, q', id);
  }

  lemma StartTaskGoesOn(q: State, id: SessionId, o: OpenTask, c: Choice)
    requires id in q.opens && q.opens[id] == o && !o.phase.Forwarded? && !o.phase.ClosingChain?
    ensures StartsOn(q, StepOpen(q, id, c))
  {
    hide StepOpen, StartsOn;
    match o.phase
    case Preparing => StartTaskForwards(q, id, o, c);
    case Identifying => StartTaskForwards(q, id, o, c);
    case Forwarding => StartTaskForwards(q, id, o, c);
    case Verifying => StartTaskForwards(q, id, o, c);
    case Publishing => StartTaskPublishes(q, id, o, c);
    case Reading(_) => StartTaskPublishes(q, id, o, c);
    case Judging(_) => StartTaskPublishes(q, id, o, c);
    case Releasing(_) => StartTaskReleases(q, id, o, c);
    case StoppingRemote => StartTaskReleases(q, id, o, c);
    case Rereading(_) => StartTaskMarks(q, id, o, c);
    case Marking => StartTaskMarks(q, id, o, c);
    case _ => StartTaskMarksLate(q, id, o, c);
  }

  // ---- closing tasks -----------------------------------------------------

  lemma AfterShutSlots(q: State, t: TaskId, alias: Alias, on: ShutFor, id: SessionId)
    ensures Idles(q, AfterShut(q, t, alias, on, id), t) && Idles(q, DropShut(q, t, alias, on), t)
  {
    hide Put, Done, Leave, Unlock, Idles;
    PutSlots(q, t, RetryCheck(alias, id !in q.rows), alias);
    PutSlots(q, t, RecoverNext(if on.Recovering? then on.todo else []), alias);
  }

  /** The slot is released. */
  lemma ForgetMoves(q: State, q': State, t: TaskId, id: SessionId)
    requires Idles(Forget(q, id), q', t)
    ensures Moved(q, q', ByTask(t), None, Some(id))
  {
    hide Pending;
  }

  lemma ShutReads(q: State, t: TaskId, alias: Alias, on: ShutFor, id: SessionId, op: nat, c: Choice)
    ensures Idles(q, StepShut(q, t, alias, on, id, op, ShutStart, c), t)
  {
    hide Lookup, DropShut, Put, Idles;
    AfterShutSlots(q, t, alias, on, id);
    PutSlots(q, t, Shut(alias, on, id, op, ShutRead(Lookup(q.rows, id))), alias);
  }

  lemma ShutTakesTunnel(
    q: State, t: TaskId, alias: Alias, on: ShutFor, id: SessionId, op: nat, row: Row)
    ensures var task := Shut(alias, on, id, op, ShutRemote(row, id in q.tunnels));
      Moved(q, Put(q, t, task).(tunnels := q.tunnels - {id}), ByTask(t), None, None)
  {
    hide Pending;
  }

  lemma ShutFinds(
    q: State, t: TaskId, alias: Alias, on: ShutFor, id: SessionId, op: nat, latest: Option<Row>, c: Choice)
    ensures Moved(q, StepShut(q, t, alias, on, id, op, ShutRead(latest), c), ByTask(t), None,
                  if latest.None? && !c.cancelled then Some(id) else None)
  {
    hide AfterShut, DropShut, Forget, Put, Moved, Idles;
    if c.cancelled {
      AfterShutSlots(q, t, alias, on, id);
      IdlesMoves(q, DropShut(q, t, alias, on), t);
    } else if latest.None? {
      AfterShutSlots(Forget(q, id), t, alias, on, id);
      ForgetMoves(q, AfterShut(Forget(q, id), t, alias, on, id), t, id);
    } else {
      ShutTakesTunnel(q, t, alias, on, id, op, latest.value);
    }
  }

  /** A statement or a log entry with the closing task's next step. */
  lemma ShutPutSlots(q: State, t: TaskId, task: Task, rows: Table, log: seq<Act>)
    requires Plain(task)
    ensures Idles(q, Put(q, t, task).(rows := rows, log := log), t) && Idles(q, Put(q, t, task).(log := log), t)
    ensures Idles(q, Put(q, t, task).(rows := rows), t)
  {
    hide Put, Plain;
    PutSlots(q, t, task, Alias(""));
  }

  lemma ShutWorks(q: State, t: TaskId, alias: Alias, on: ShutFor, id: SessionId, op: nat, at: ShutStep, c: Choice)
    requires at.ShutRemote? || at.ShutClosing? || at.ShutCleared?
    ensures Idles(q, StepShut(q, t, alias, on, id, op, at, c), t)
  {
    hide ClearTunnelIdentity, MarkError, Delete, StopRemote, DropShut, Put, Idles;
    if c.cancelled {
      AfterShutSlots(q, t, alias, on, id);
    } else if at.ShutRemote? {
      var r := StopRemote(at.row, id, op, c);
      ShutPutSlots(q, t, Shut(alias, on, id, op, ShutClosing(r.absent, r.failed, at.tunnel)), q.rows, q.log + r.acts);
    } else if at.ShutClosing? {
      var failed := at.failed || !c.closed || (at.tunnel && !c.drained);
      var rows := if at.tunnel && c.drained then ClearTunnelIdentity(q.rows, id) else q.rows;
      ShutPutSlots(q, t, Shut(alias, on, id, op, ShutClosed(at.absent, failed, !c.closed)), rows, q.log);
    } else {
      ShutPutSlots(q, t, Shut(alias, on, id, op, ShutMark), MarkError(q.rows, id, StopFailed), q.log);
      ShutPutSlots(q, t, Shut(alias, on, id, op, ShutDelete), Delete(q.rows, id),
                   q.log + [Deleted(op, id, on.Forced?)]);
    }
  }

  lemma ShutPutsBack(
    q: State, t: TaskId, alias: Alias, on: ShutFor, id: SessionId, op: nat, absent: bool, failed: bool, retain: bool,
    c: Choice)
    ensures Moved(q, StepShut(q, t, alias, on, id, op, ShutClosed(absent, failed, retain), c), ByTask(t),
                  KeptUnless(c.cancelled || !retain || on.Forced?, id, q.next), None)
  {
    hide ClearRemoteIdentity, DropShut, Put, Retain, Idles, Moved;
    if c.cancelled {
      AfterShutSlots(q, t, alias, on, id);
      IdlesMoves(q, DropShut(q, t, alias, on), t);
    } else {
      var closed := !retain || on.Forced?;
      var rows := if absent then ClearRemoteIdentity(q.rows, id) else q.rows;
      var kept, task := Retain(q, id, closed), Shut(alias, on, id, op, ShutCleared(absent, failed));
      ShutPutSlots(kept, t, task, rows, q.log);
      RetainMoves(q, id, closed, Put(kept, t, task).(rows := rows), t);
    }
  }

  lemma ShutEnds(q: State, t: TaskId, alias: Alias, on: ShutFor, id: SessionId, op: nat, at: ShutStep, c: Choice)
    requires at.ShutMark? || at.ShutDelete?
    ensures Moved(q, StepShut(q, t, alias, on, id, op, at, c), ByTask(t), None,
                  if at.ShutDelete? && !c.cancelled then Some(id) else None)
  {
    hide AfterShut, DropShut, Forget, Idles, Moved;
    AfterShutSlots(q, t, alias, on, id);
    if c.cancelled {
      IdlesMoves(q, DropShut(q, t, alias, on), t);
    } else if at.ShutMark? {
      IdlesMoves(q, AfterShut(q, t, alias, on, id), t);
    } else {
      AfterShutSlots(Forget(q, id), t, alias, on, id);
      ForgetMoves(q, AfterShut(Forget(q, id), t, alias, on, id), t, id);
    }
  }

  lemma ShutMoves(q: State, t: TaskId, task: Task, c: Choice)
    requires t in q.tasks && q.tasks[t] == task && task.Shut?
    ensures Moved(q, StepTask(q, t, c), ByTask(t), Stored(q, Turn(t, c)), Freed(q, Turn(t, c)))
  {
    hide StepShut, Moved, Idles;
    var Shut(alias, on, id, op, at) := task;
    match at
    case ShutStart =>
      ShutReads(q, t, alias, on, id, op, c);
      IdlesMoves(q, StepTask(q, t, c), t);
    case ShutRead(latest) => ShutFinds(q, t, alias, on, id, op, latest, c);
    case ShutRemote(_, _) =>
      ShutWorks(q, t, alias, on, id, op, at, c);
      IdlesMoves(q, StepTask(q, t, c), t);
    case ShutClosing(_, _, _) =>
      ShutWorks(q, t, alias, on, id, op, at, c);
      IdlesMoves(q, StepTask(q, t, c), t);
    case ShutClosed(absent, failed, retain) => ShutPutsBack(q, t, alias, on, id, op, absent, failed, retain, c);
    case ShutCleared(_, _) =>
      ShutWorks(q, t, alias, on, id, op, at, c);
      IdlesMoves(q, StepTask(q, t, c), t);
    case ShutMark => ShutEnds(q, t, alias, on, id, op, at, c);
    case ShutDelete => ShutEnds(q, t, alias, on, id, op, at, c);
  }

  // ---- a tunnel's exit ---------------------------------------------------

  /** The task goes on with the same tunnel, or another that fits. */
  lemma FittingMoves(q: State, q': State, t: TaskId, task: Task)
    requires SameSlots(q, q') && q'.tasks == q.tasks[t := task] && Fits(q', task)
    ensures Moved(q, q', ByTask(t), None, None)
  {
    hide Fits;
  }

  lemma FittingSlots(q: State, t: TaskId, task: Task, alias: Alias)
    ensures var q' := Put(q, t, task); SameSlots(q, q') && q'.tasks == q.tasks[t := task]
    ensures var q' := Take(q, t, alias, task); SameSlots(q, q') && q'.tasks == q.tasks[t := task]
  {
  }

  lemma ExitReadMoves(q: State, t: TaskId, alias: Alias, id: SessionId, tunnel: nat, found: bool, c: Choice)
    requires tunnel < q.next
    ensures Moved(q, StepExitRead(q, t, alias, id, tunnel, found, c), ByTask(t), None, None)
  {
    hide Put, Done, Moved, Idles;
    if c.cancelled || !found {
      PutSlots(q, t, OpenLock(alias), alias);
      IdlesMoves(q, Done(q, t), t);
    } else {
      FittingSlots(q, t, ExitLock(alias, id, tunnel), alias);
      FittingMoves(q, Put(q, t, ExitLock(alias, id, tunnel)), t, ExitLock(alias, id, tunnel));
    }
  }

  lemma ExitLockMoves(q: State, t: TaskId, alias: Alias, id: SessionId, tunnel: nat, c: Choice)
    requires t in q.tasks && q.tasks[t] == ExitLock(alias, id, tunnel) && tunnel < q.next
    ensures Moved(q, StepExitLock(q, t, alias, id, tunnel, c), ByTask(t), None, None)
  {
    hide Take, Done, Lookup, Moved, Idles;
    if c.cancelled {
      PutSlots(q, t, OpenLock(alias), alias);
      IdlesMoves(q, Done(q, t), t);
    } else if alias in q.locks {
      WaitsMoves(q, t);
    } else {
      var task := ExitCheck(alias, id, tunnel, Lookup(q.rows, id));
      FittingSlots(q, t, task, alias);
      FittingMoves(q, Take(q, t, alias, task), t, task);
    }
  }

  lemma WaitsMoves(q: State, t: TaskId)
    requires t in q.tasks && Fits(q, q.tasks[t])
    ensures Moved(q, q, ByTask(t), None, None)
  {
    hide Fits;
  }

  lemma ExitTakesTunnel(q: State, t: TaskId, alias: Alias, id: SessionId, tunnel: nat)
    requires tunnel < q.next
    ensures
      var q' := Put(q, t, ExitClosing(alias, id, tunnel)).(registry := q.registry - {id}, tunnels := q.tunnels - {id});
      Moved(q, q', ByTask(t), None, None)
  {
    hide Pending;
  }

  lemma ExitCheckMoves(
    q: State, t: TaskId, alias: Alias, id: SessionId, tunnel: nat, latest: Option<Row>, c: Choice)
    requires tunnel < q.next
    ensures Moved(q, StepExitCheck(q, t, alias, id, tunnel, latest, c), ByTask(t), None, None)
  {
    hide Leave, Put, Moved, Idles;
    PutSlots(q, t, OpenLock(alias), alias);
    IdlesMoves(q, Leave(q, t, alias), t);
    ExitTakesTunnel(q, t, alias, id, tunnel);
  }

  lemma ExitPutsBack(q: State, t: TaskId, alias: Alias, id: SessionId, tunnel: nat, closed: bool)
    requires tunnel < q.next
    ensures
      var tunnels := if closed then q.tunnels else q.tunnels[id := tunnel];
      Moved(q, Put(Unlock(q, alias), t, ExitWait(alias, id)).(tunnels := tunnels), ByTask(t),
            KeptUnless(closed, id, tunnel), None)
  {
  }

  lemma ExitClosingMoves(q: State, t: TaskId, alias: Alias, id: SessionId, tunnel: nat, c: Choice)
    requires tunnel < q.next
    ensures Moved(q, StepExitClosing(q, t, alias, id, tunnel, c), ByTask(t),
                  KeptUnless(c.closed || c.cancelled, id, tunnel), None)
  {
    hide Leave, Put, Unlock, Moved, Idles;
    PutSlots(q, t, OpenLock(alias), alias);
    IdlesMoves(q, Leave(q, t, alias), t);
    ExitPutsBack(q, t, alias, id, tunnel, c.closed);
  }

  lemma ExitFreshMoves(q: State, t: TaskId, alias: Alias, id: SessionId, latest: Option<Row>, c: Choice)
    ensures Moved(q, StepExitFresh(q, t, alias, id, latest, c), ByTask(t), None, None)
  {
    hide StartAttach, Leave, Put, Unlock, Moved, Idles;
    PutSlots(q, t, ExitGiveUp(alias, id), alias);
    IdlesMoves(q, Leave(q, t, alias), t);
    IdlesMoves(q, Put(Unlock(q, alias), t, ExitGiveUp(alias, id)), t);
    if latest.Some? { AttachStarts(q, t, alias, ByExit, id, latest.value, c); }
  }

  lemma ExitWaitSlots(q: State, t: TaskId, alias: Alias, id: SessionId, c: Choice)
    requires t in q.tasks && q.tasks[t] == ExitWait(alias, id)
    ensures Idles(q, StepExitWait(q, t, alias, id, c), t)
  {
    hide Lookup, Put, Done, Take, Idles;
    SameIdles(q, t);
    PutSlots(q, t, ExitGiveUp(alias, id), alias);
    TakeSlots(q, t, alias, ExitFresh(alias, id, Lookup(q.rows, id)));
  }

  lemma ExitGiveUpSlots(q: State, t: TaskId, alias: Alias, id: SessionId, c: Choice)
    requires t in q.tasks && q.tasks[t] == ExitGiveUp(alias, id)
    ensures Idles(q, StepExitGiveUp(q, t, alias, id, c), t)
  {
    hide Lookup, Done, Take, Idles;
    SameIdles(q, t);
    TakeSlots(q, t, alias, ExitFinal(alias, id, Lookup(q.rows, id)));
  }

  lemma ExitFinalSlots(q: State, t: TaskId, alias: Alias, id: SessionId, latest: Option<Row>, c: Choice)
    ensures Idles(q, StepExitFinal(q, t, alias, id, latest, c), t)
  {
    hide MarkError, Put, Leave, Idles;
    PutSlots(q, t, ExitMark(alias, id), alias);
    RecoveryPatchSlots(q, t, ExitMark(alias, id), alias, MarkError(q.rows, id, TunnelLost));
  }

  lemma ExitMoves(q: State, t: TaskId, task: Task, c: Choice)
    requires t in q.tasks && q.tasks[t] == task && IsExit(task) && Fits(q, task)
    ensures Moved(q, StepTask(q, t, c), ByTask(t), StoredByTask(q, task, c), None)
  {
    if task.ExitClosing? {
      hide StepExitClosing, Moved;
      ExitClosingMoves(q, t, task.alias, task.id, task.tunnel, c);
    } else if task.ExitRead? || task.ExitLock? || task.ExitCheck? || task.ExitFresh? {
      hide StepTask, Moved, StoredByTask, Fits;
      OnlyClosingStores(q, task, c);
      ExitBeginsMoves(q, t, task, c);
    } else {
      hide StepTask, Moved, Idles, StoredByTask, Fits;
      OnlyClosingStores(q, task, c);
      ExitWaitsSlots(q, t, task, c);
      IdlesMoves(q, StepTask(q, t, c), t);
    }
  }

  lemma OnlyClosingStores(q: State, task: Task, c: Choice)
    requires IsExit(task) && !task.ExitClosing?
    ensures StoredByTask(q, task, c) == None
  {
  }

  lemma ExitBeginsMoves(q: State, t: TaskId, task: Task, c: Choice)
    requires t in q.tasks && q.tasks[t] == task && Fits(q, task)
    requires task.ExitRead? || task.ExitLock? || task.ExitCheck? || task.ExitFresh?
    ensures Moved(q, StepTask(q, t, c), ByTask(t), None, None)
  {
    hide StepExitRead, StepExitLock, StepExitCheck, StepExitFresh, Moved;
    if task.ExitRead? {
      ExitReadMoves(q, t, task.alias, task.id, task.tunnel, task.found, c);
    } else if task.ExitLock? {
      ExitLockMoves(q, t, task.alias, task.id, task.tunnel, c);
    } else if task.ExitCheck? {
      ExitCheckMoves(q, t, task.alias, task.id, task.tunnel, task.latest, c);
    } else {
      ExitFreshMoves(q, t, task.alias, task.id, task.latest, c);
    }
  }

  lemma ExitWaitsSlots(q: State, t: TaskId, task: Task, c: Choice)
    requires t in q.tasks && q.tasks[t] == task
    requires task.ExitWait? || task.ExitGiveUp? || task.ExitFinal? || task.ExitMark?
    ensures Idles(q, StepTask(q, t, c), t)
  {
    hide StepExitWait, StepExitGiveUp, StepExitFinal, Leave, Idles;
    if task.ExitWait? {
      ExitWaitSlots(q, t, task.alias, task.id, c);
    } else if task.ExitGiveUp? {
      ExitGiveUpSlots(q, t, task.alias, task.id, c);
    } else if task.ExitFinal? {
      ExitFinalSlots(q, t, task.alias, task.id, task.latest, c);
    } else {
      PutSlots(q, t, task, task.alias);
    }
  }

  // ---- startup recovery --------------------------------------------------

  ghost function Held(q: State, t: TaskId, record: Found): State {
    q.(locks := q.locks[record.row.alias := t], backlog := q.backlog - {record.id})
  }

  lemma RecoverTakesUp(q: State, t: TaskId, todo: seq<Found>)
    requires todo != []
    ensures
      var held, task := Held(q, t, todo[0]), RecoverInspect(todo[0].row.alias, todo[0].id, q.next, todo[1..]);
      Moved(held, Put(held, t, task).(next := q.next + 1), ByTask(t), None, None)
  {
  }

  lemma RecoverEnds(q: State, t: TaskId)
    ensures Idles(q, Done(q, t).(recoverer := None), t)
  {
    hide Plain;
  }

  lemma HeldMoves(q: State, t: TaskId, record: Found, q': State)
    requires Moved(Held(q, t, record), q', ByTask(t), None, None)
    ensures Moved(q, q', ByTask(t), None, None)
  {
    hide Moved;
    SameMoves(q, Held(q, t, record), q', t, None);
  }

  lemma RecoverNextMoves(q: State, t: TaskId, todo: seq<Found>, c: Choice)
    requires t in q.tasks && q.tasks[t] == RecoverNext(todo)
    ensures Moved(q, StepRecoverNext(q, t, todo, c), ByTask(t), None, None)
  {
    hide StartAttach, StartShut, CanReattach, Put, Done, Moved, Idles;
    var q' := StepRecoverNext(q, t, todo, c);
    if todo == [] {
      RecoverEnds(q, t);
      IdlesMoves(q, q', t);
    } else if todo[0].row.alias in q.locks {
      WaitsMoves(q, t);
    } else {
      var Found(id, row) := todo[0];
      var held := Held(q, t, todo[0]);
      AttachStarts(held, t, row.alias, ByRecovery(todo[1..]), id, row, c);
      ShutStartSlots(held, t, row.alias, Recovering(todo[1..]), id);
      IdlesMoves(held, StartShut(held, t, row.alias, Recovering(todo[1..]), id), t);
      RecoverTakesUp(q, t, todo);
      HeldMoves(q, t, todo[0], q');
    }
  }

  lemma InspectionKeeps(q: State, t: TaskId, alias: Alias, id: SessionId, todo: seq<Found>, closed: bool)
    ensures Moved(q, Put(Unlock(Retain(q, id, closed), alias), t, RecoverNext(todo)), ByTask(t),
                  KeptUnless(closed, id, q.next), None)
  {
    hide Retain, Put, Unlock, Idles, Moved;
    PutSlots(Retain(q, id, closed), t, RecoverNext(todo), alias);
    RetainMoves(q, id, closed, Put(Unlock(Retain(q, id, closed), alias), t, RecoverNext(todo)), t);
  }

  lemma RecoverInspectMoves(
    q: State, t: TaskId, alias: Alias, id: SessionId, op: nat, todo: seq<Found>, c: Choice)
    ensures var q' := StepRecoverInspect(q, t, alias, id, op, todo, c);
      Moved(q, q', ByTask(t), KeptUnless(c.closed, id, q.next), None)
  {
    hide Retain, Put, Unlock, Delete, Moved, Idles;
    var q' := StepRecoverInspect(q, t, alias, id, op, todo, c);
    if !c.connected || c.inspection.running {
      InspectionKeeps(q, t, alias, id, todo, c.closed);
    } else {
      var asked := q.(log := q.log + [Confirmed(op, id), Removing(op, id)]);
      if c.removed && c.closed {
        RecoveryDeleteSlots(asked, t, alias, id, op, todo);
        IdlesMoves(asked, q', t);
      } else {
        InspectionKeeps(asked, t, alias, id, todo, c.closed);
      }
      SameMoves(q, asked, q', t, KeptUnless(c.closed, id, q.next));
    }
  }

  lemma RecoverDeleteMoves(q: State, t: TaskId, alias: Alias, id: SessionId, todo: seq<Found>)
    ensures Moved(q, StepRecoverDelete(q, t, alias, id, todo), ByTask(t), None, Some(id))
  {
  }

  lemma RecoverMoves(q: State, t: TaskId, task: Task, c: Choice)
    requires t in q.tasks && q.tasks[t] == task && IsRecover(task)
    ensures Moved(q, StepTask(q, t, c), ByTask(t), Stored(q, Turn(t, c)), Freed(q, Turn(t, c)))
  {
    hide StepRecoverNext, StepRecoverInspect, StepRecoverDelete, Moved, Idles;
    if task.RecoverNext? {
      RecoverNextMoves(q, t, task.todo, c);
    } else if task.RecoverInspect? {
      RecoverInspectMoves(q, t, task.alias, task.id, task.op, task.todo, c);
    } else if task.RecoverDelete? {
      RecoverDeleteMoves(q, t, task.alias, task.id, task.todo);
    } else {
      hide StepTask;
      RecoverMarksSlots(q, t, task, c);
      IdlesMoves(q, StepTask(q, t, c), t);
    }
  }

  lemma RecoverMarksSlots(q: State, t: TaskId, task: Task, c: Choice)
    requires t in q.tasks && q.tasks[t] == task && (task.RecoverClear? || task.RecoverMark?)
    ensures Idles(q, StepTask(q, t, c), t)
  {
    hide MarkError, Put, Unlock, Idles;
    if task.RecoverClear? {
      var marked := MarkError(q.rows, task.id, RecoveryFailed);
      RecoveryPatchSlots(q, t, RecoverMark(task.alias, task.id, task.todo), task.alias, marked);
    } else {
      PutSlots(q, t, RecoverNext(task.todo), task.alias);
    }
  }

  // ---- every step --------------------------------------------------------

  lemma TurnMoves(q: State, t: TaskId, c: Choice)
    requires t in q.tasks && Fits(q, q.tasks[t])
    ensures Moved(q, StepTask(q, t, c), ByTask(t), Stored(q, Turn(t, c)), Freed(q, Turn(t, c)))
  {
    hide StepTask, Moved, Fits;
    var task := q.tasks[t];
    if IsOpen(task) {
      OpenMoves(q, t, task, c);
    } else if IsClose(task) {
      CloseSlots(q, t, task, c);
      IdlesMoves(q, StepTask(q, t, c), t);
    } else if IsRetry(task) {
      RetryMoves(q, t, task, c);
    } else if IsExit(task) {
      ExitMoves(q, t, task, c);
    } else if IsRecover(task) {
      RecoverMoves(q, t, task, c);
    } else if task.Shut? {
      ShutMoves(q, t, task, c);
    } else {
      AttachMoves(q, t, task, c);
    }
  }

  lemma SpawnMoves(q: State, task: Task)
    requires Fits(Spawn(q, task), task)
    ensures Moved(q, Spawn(q, task), ByWorld, None, None)
  {
    hide Fits;
  }

  lemma TablesMoves(q: State, counts: map<SessionId, nat>, timers: set<SessionId>)
    ensures Moved(q, q.(counts := counts, timers := timers), ByWorld, None, None)
    ensures Moved(q, q.(timers := timers, counts := counts), ByWorld, None, None)
    ensures Moved(q, q.(timers := timers), ByWorld, None, None) && Moved(q, q, ByWorld, None, None)
  {
    hide Fits;
  }

  lemma ConnectedMoves(q: State, id: SessionId)
    ensures Moved(q, StepConnected(q, id), ByWorld, None, None)
  {
    hide Moved;
    var counts := q.counts[id := (if id in q.counts then q.counts[id] else 0) + 1];
    TablesMoves(q, counts, q.timers - {id});
  }

  lemma CountDownMoves(q: State, id: SessionId)
    requires q.recoverer.None? && id in q.owned
    ensures Moved(q, StepDisconnected(q, id), ByWorld, None, None)
  {
    hide Moved;
    var count := if id in q.counts then q.counts[id] else 0;
    var left := if count > 0 then count - 1 else 0;
    TablesMoves(q, if count > 0 then q.counts[id := left] else q.counts,
                if left == 0 then q.timers + {id} else q.timers);
  }

  lemma DisconnectedMoves(q: State, id: SessionId)
    ensures Moved(q, StepDisconnected(q, id), ByWorld, None, None)
  {
    hide Moved;
    if q.recoverer.None? && id in q.owned {
      CountDownMoves(q, id);
    } else {
      TablesMoves(q, q.counts - {id}, q.timers - {id});
    }
  }

  lemma TunnelDownMoves(q: State, k: nat)
    requires k in q.watched ==> k < q.next
    ensures Moved(q, Apply(q, TunnelDown(k)), ByWorld, None, None)
  {
    hide Spawn, Moved;
    if k in q.watched && q.watched[k] in q.names {
      var id := q.watched[k];
      var task := ExitRead(q.names[id], id, k, id in q.rows);
      SpawnNext(q, task);
      SpawnMoves(q, task);
    } else {
      TablesMoves(q, q.counts, q.timers);
    }
  }

  lemma SpawnNext(q: State, task: Task)
    ensures Spawn(q, task).next == q.next + 1 && Spawn(q, task).tunnels == q.tunnels
  {
  }

  lemma RequestMoves(q: State, e: Event)
    requires e.CallOpen? || e.CallClose? || e.CallRetry? || e.TimerGone?
    ensures Moved(q, Apply(q, e), ByWorld, None, None)
  {
    hide Spawn, Moved;
    TablesMoves(q, q.counts, if e.TimerGone? then q.timers - {e.id} else q.timers);
    if e.CallOpen? { SpawnMoves(q, OpenLock(e.alias)); }
    if e.CallClose? { SpawnMoves(q, CloseLock(e.alias, e.force)); }
    if e.CallRetry? { SpawnMoves(q, RetryLock(e.alias)); }
  }

  // ---- numbers -----------------------------------------------------------

  /** Every number in use is below the next one, and every task fits. */
  ghost predicate Numbered(q: State) {
    && (forall id :: id in q.tunnels ==> q.tunnels[id] < q.next)
    && (forall k :: k in q.watched ==> k < q.next)
    && (forall t :: t in q.tasks ==> Fits(q, q.tasks[t]))
  }

  lemma StaysMoves(q: State, a: Actor)
    requires a.ByTask? && a.t in q.tasks ==> Fits(q, q.tasks[a.t])
    ensures Moved(q, q, a, None, None)
  {
    hide Fits;
  }

  lemma StepMoves(q: State, e: Event)
    requires Numbered(q) && !e.Restart?
    ensures Moved(q, Apply(q, e), ActorOf(e), Stored(q, e), Freed(q, e))
  {
    hide StepTask, StepOpen, StepConnected, StepDisconnected, Moved, Fits, Spawn, Lists;
    match e
    case Turn(t, c) => if t in q.tasks { TurnMoves(q, t, c); } else { StaysMoves(q, ByTask(t)); }
    case OpenTurn(id, c) => if id in q.opens { StartTaskMoves(q, id, c); } else { StaysMoves(q, ByOpen(id)); }
    case TunnelDown(k) => TunnelDownMoves(q, k);
    case Connected(id) => ConnectedMoves(q, id);
    case Disconnected(id) => DisconnectedMoves(q, id);
    case _ => RequestMoves(q, e);
  }

  ghost predicate Guarded(task: Task) {
    task.ExitClosing? || (Pending(task) && !task.on.ByExit?)
  }

  /** While a session's tunnel is being closed by its exit, no other task stores that tunnel again; while a
      retry or startup recovery reattaches a session, no other task stores a tunnel for it at all. */
  lemma NobodyElseStores(q: State, e: Event, t: TaskId)
    requires Inv(q) && t in q.tasks && Guarded(q.tasks[t]) && ActorOf(e) != ByTask(t)
    requires Stored(q, e).Some? && Stored(q, e).value.id == q.tasks[t].id
    ensures q.tasks[t].ExitClosing? && Stored(q, e).value.number == q.next
  {
    hide Shared, Coherent, TodoOk, Justified, Quiet, Settled, OpenOk;
    var task := q.tasks[t];
    assert TaskOk(q, t, task);
    if e.Turn? { assert TaskOk(q, e.task, q.tasks[e.task]); }
  }

  lemma FitsStays(q: State, q': State, e: Event, t: TaskId)
    requires Inv(q) && t in q.tasks && Fits(q, q.tasks[t]) && ActorOf(e) != ByTask(t)
    requires Moved(q, q', ActorOf(e), Stored(q, e), Freed(q, e))
    ensures Fits(q', q.tasks[t])
  {
    hide Inv, Stored, Freed, NewFit;
    var task, stored := q.tasks[t], Stored(q, e);
    if Guarded(task) && stored.Some? && stored.value.id == task.id { NobodyElseStores(q, e, t); }
  }

  lemma StoredBelow(q: State, q': State, e: Event)
    requires Numbered(q) && Moved(q, q', ActorOf(e), Stored(q, e), Freed(q, e)) && Stored(q, e).Some?
    ensures Stored(q, e).value.number < q'.next
  {
    hide NewFit, OnlyDrops;
  }

  lemma StepNumbered(q: State, e: Event)
    requires Inv(q) && Numbered(q)
    ensures Numbered(Apply(q, e))
  {
    var q' := Apply(q, e);
    if e.Restart? {
      RestartNumbered(q, e.order);
    } else {
      hide Inv, Apply, Stored, Freed, Fits, ActorOf, Moved;
      StepMoves(q, e);
      NumbersStayBelow(q, q', e);
      MovedTasks(q, q', ActorOf(e), Stored(q, e), Freed(q, e));
      forall t | t in q'.tasks ensures Fits(q', q'.tasks[t]) {
        if t in q.tasks && ActorOf(e) != ByTask(t) && q'.tasks[t] == q.tasks[t] { FitsStays(q, q', e, t); }
      }
    }
  }

  lemma MovedTasks(q: State, q': State, a: Actor, stored: Option<Kept>, freed: Option<SessionId>)
    requires Moved(q, q', a, stored, freed)
    ensures NewFit(q, q', a)
  {
    hide NewFit, OnlyDrops;
  }

  lemma NumbersStayBelow(q: State, q': State, e: Event)
    requires Numbered(q) && Moved(q, q', ActorOf(e), Stored(q, e), Freed(q, e))
    ensures forall id :: id in q'.tunnels ==> q'.tunnels[id] < q'.next
    ensures forall k :: k in q'.watched ==> k < q'.next
  {
    if Stored(q, e).Some? { StoredBelow(q, q', e); }
    hide Stored, Freed, NewFit, Fits, ActorOf;
  }

  lemma RestartNumbered(q: State, order: seq<Found>)
    requires Numbered(q)
    ensures Numbered(Apply(q, Restart(order)))
  {
    hide Lists;
  }

  lemma InitialNumbered(s: State)
    requires Initial(s)
    ensures Numbered(s)
  {
    hide Lists;
  }

  lemma {:induction false} RunNumbered(s: State, events: seq<Event>)
    requires Initial(s)
    ensures Numbered(Run(s, events))
    decreases |events|
  {
    hide Inv, Apply, Numbered, Initial;
    if events == [] {
      InitialNumbered(s);
    } else {
      RunNumbered(s, events[..|events| - 1]);
      RunInv(s, events[..|events| - 1]);
      StepNumbered(Run(s, events[..|events| - 1]), events[|events| - 1]);
    }
  }

  // ---- tunnels without a slot --------------------------------------------

  /** A kept tunnel of a session that owns no slot. */
  ghost predicate Stranded(q: State, id: SessionId) {
    id in q.tunnels && id !in q.owned
  }

  /** The step puts a chain back when the slot is gone, or releases the slot when a chain was put back. */
  ghost predicate Strands(q: State, e: Event, id: SessionId) {
    && e.Turn? && e.task in q.tasks
    && var task := q.tasks[e.task];
       || (PutsBack(task, e.answers) && task.id == id && id !in q.owned)
       || (Releases(task, e.answers) && task.id == id && id in q.tunnels)
  }

  lemma AttachOwned(q: State, t: TaskId, task: Task)
    requires Inv(q) && t in q.tasks && q.tasks[t] == task && task.Attach? && task.step != AttachBegin(false)
    ensures task.id in q.owned
  {
    hide OpenOk, LogJustified;
    assert TaskOk(q, t, task);
  }

  lemma OpensOwned(q: State)
    requires Inv(q)
    ensures q.opens.Keys <= q.owned
  {
    hide TaskOk, OpenOk, RowsOk, LogJustified;
  }

  /** A step leaves a tunnel without its slot only if it meets the guard of one of these steps. */
  lemma StrandedStep(q: State, e: Event, id: SessionId)
    requires Inv(q) && Numbered(q) && Stranded(Apply(q, e), id) && !Stranded(q, id)
    ensures Strands(q, e, id)
  {
    if e.Restart? {
      RestartEmpties(q, e.order);
    } else {
      hide Inv, Numbered, Apply, PutsBack, AttachStores, OpenStores, NewFit, Releases;
      StepMoves(q, e);
      if e.Turn? && e.task in q.tasks && AttachStores(q.tasks[e.task], e.answers) {
        AttachStoring(q.tasks[e.task], e.answers);
        AttachOwned(q, e.task, q.tasks[e.task]);
      }
      OpensOwned(q);
    }
  }

  lemma AttachStoring(task: Task, c: Choice)
    requires AttachStores(task, c)
    ensures task.Attach? && task.step != AttachBegin(false)
  {
  }

  lemma RestartEmpties(q: State, order: seq<Found>)
    requires Apply(q, Restart(order)) != q
    ensures Apply(q, Restart(order)).tunnels == map[]
  {
    hide Lists;
  }

  ghost predicate StrandedIn(s: State, events: seq<Event>, id: SessionId) {
    exists i :: 0 <= i < |events| && Strands(Run(s, events[..i]), events[i], id)
  }

  lemma StrandedLonger(s: State, events: seq<Event>, e: Event, id: SessionId)
    requires StrandedIn(s, events, id) || Strands(Run(s, events), e, id)
    ensures StrandedIn(s, events + [e], id)
  {
    hide Run, Strands;
    var all := events + [e];
    if Strands(Run(s, events), e, id) {
      assert all[..|events|] == events && all[|events|] == e;
    } else {
      var i :| 0 <= i < |events| && Strands(Run(s, events[..i]), events[i], id);
      assert all[..i] == events[..i] && all[i] == events[i];
    }
  }

  lemma NothingRuns(s: State)
    ensures Run(s, []) == s
  {
  }

  lemma NoTunnelAtFirst(s: State)
    requires Initial(s)
    ensures s.tunnels == map[]
  {
    hide Lists;
  }

  /** _tunnels holds an id without a slot only because a closing task put a failed chain back after the slot
      was gone, or released the slot after one was put back. */
  lemma {:induction false} StrandedTunnelWasPutBack(s: State, events: seq<Event>, id: SessionId)
    requires Initial(s) && Stranded(Run(s, events), id)
    ensures StrandedIn(s, events, id)
    decreases |events|
  {
    hide Run, Inv, Numbered, Apply, Strands, Initial;
    if events == [] {
      NothingRuns(s);
      NoTunnelAtFirst(s);
    } else {
      hide Stranded;
      var before, e := events[..|events| - 1], events[|events| - 1];
      assert events == before + [e];
      RunPrefix(s, before, e);
      if Stranded(Run(s, before), id) {
        StrandedTunnelWasPutBack(s, before, id);
      } else {
        RunInv(s, before);
        RunNumbered(s, before);
        StrandedStep(Run(s, before), e, id);
      }
      StrandedLonger(s, before, e, id);
    }
  }

  lemma StoredOrFreed(q: State, e: Event, id: SessionId)
    requires Strands(q, e, id)
    ensures (Stored(q, e).Some? && Stored(q, e).value.id == id && id !in q.owned && Freed(q, e).None?)
            || (Freed(q, e) == Some(id) && id in q.tunnels)
  {
  }

  /** And each of these steps does leave the tunnel behind. */
  lemma StrandsLeaves(q: State, e: Event, id: SessionId)
    requires Numbered(q) && Strands(q, e, id)
    ensures Stranded(Apply(q, e), id)
  {
    hide Apply, Numbered, NewFit, Stored, Freed;
    StoredOrFreed(q, e, id);
    hide Strands;
    StepMoves(q, e);
  }

  // ---- tunnels that replace each other -----------------------------------

  /** The step stores a tunnel over one that is kept: a closing task puts back a chain it could not close, a
      reattachment after a tunnel's exit installs or keeps its own, or a start task does. */
  ghost predicate Replaces(q: State, e: Event, id: SessionId) {
    && id in q.tunnels
    && match e
       case Turn(t, c) =>
         && t in q.tasks
         && var task := q.tasks[t];
            || (PutsBack(task, c) && task.id == id)
            || (AttachStores(task, c) && task.on.ByExit? && task.id == id)
       case OpenTurn(x, c) => x == id && id in q.opens && OpenStores(q, id, q.opens[id], c)
       case _ => false
  }

  lemma ReplacesStores(q: State, e: Event, id: SessionId)
    requires Inv(q) && Numbered(q) && id in q.tunnels
    ensures Replaces(q, e, id) <==> Stored(q, e).Some? && Stored(q, e).value.id == id
  {
    hide Inv;
  }

  /** In every state of every run, a step makes another tunnel out of one that is kept exactly if it meets one
      of these guards. */
  lemma {:induction false} ReplacedExactly(s: State, events: seq<Event>, e: Event, id: SessionId)
    requires Initial(s)
    ensures
      var q, q' := Run(s, events), Run(s, events + [e]);
      Replaces(q, e, id) <==> id in q.tunnels && id in q'.tunnels && q'.tunnels[id] != q.tunnels[id]
  {
    hide Run, Inv, Numbered, Apply, Initial;
    var q := Run(s, events);
    RunPrefix(s, events, e);
    RunInv(s, events);
    RunNumbered(s, events);
    ReplacedStep(q, e, id);
  }

  lemma ReplacedStep(q: State, e: Event, id: SessionId)
    requires Inv(q) && Numbered(q)
    ensures Replaces(q, e, id)
            <==> id in q.tunnels && id in Apply(q, e).tunnels && Apply(q, e).tunnels[id] != q.tunnels[id]
  {
    if e.Restart? {
      if Apply(q, e) != q { RestartEmpties(q, e.order); }
    } else if id in q.tunnels {
      hide Inv, Apply, NewFit, Replaces, Stored, Freed;
      StepMoves(q, e);
      ReplacesStores(q, e, id);
      if Replaces(q, e, id) { StoredDiffers(q, e, id); }
    } else {
      hide Apply, Inv, Numbered;
    }
  }

  lemma StoredDiffers(q: State, e: Event, id: SessionId)
    requires Numbered(q) && Stored(q, e).Some? && Stored(q, e).value.id == id && id in q.tunnels
    ensures Stored(q, e).value.number != q.tunnels[id]
  {
    hide AttachStores, OpenStores, PutsBack;
  }
}
