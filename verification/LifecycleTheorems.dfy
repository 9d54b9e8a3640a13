/** Safety of the session lifecycle over every run, restarts included. */
module LifecycleTheorems {
  import opened Wrappers
  import opened Records
  import opened Database
  import opened Lifecycle
  import opened LifecycleInvariant
  import opened LifecycleSteps
  import opened LifecycleReattach
  import opened LifecycleOpening

  /** A process that has just started on rows an earlier run may have left behind. */
  ghost predicate Initial(s: State) {
    exists rows: Table, order: seq<Found>, names: map<SessionId, Alias>, next: nat, capacity: nat ::
      && RowsWellFormed(rows, names) && NamesFresh(names, next) && Lists(rows, order)
      && s == Boot(rows, order, names, {}, [], next, capacity)
  }

  lemma InitialInv(s: State)
    requires Initial(s)
    ensures Inv(s)
  {
    hide Inv;
    var rows: Table, order: seq<Found>, names: map<SessionId, Alias>, next: nat, capacity: nat :|
      && RowsWellFormed(rows, names) && NamesFresh(names, next) && Lists(rows, order)
      && s == Boot(rows, order, names, {}, [], next, capacity);
    BootInv(rows, order, names, {}, [], next, capacity);
  }

  // ---- one step ---------------------------------------------------------

  lemma RequestStepGood(s: State, t: TaskId, c: Choice)
    requires Inv(s) && t in s.tasks && (IsOpen(s.tasks[t]) || IsClose(s.tasks[t]) || IsRetry(s.tasks[t]))
    ensures Good(s, StepTask(s, t, c), ByTask(t))
  {
    hide Good, Shared, TaskOk, OpenOk;
    hide StepOpenLock, StepOpenRead, StepOpenInsert, StepCloseLock, StepCloseRead, StepCloseMark, StepCloseSettle;
    hide StepRetryLock, StepRetryRead, StepRetrySettle, StepRetrySleep, StepRetryCheck;
    assert Due(s, t, s.tasks[t]);
    match s.tasks[t]
    case OpenLock(alias) => OpenLockGood(s, t, alias, c);
    case OpenRead(alias, found) => OpenReadGood(s, t, alias, found, c);
    case OpenInsert(alias, id) => OpenInsertGood(s, t, alias, id, c);
    case OpenRollback(alias) => RollbackGood(s, t, alias);
    case CloseLock(alias, force) => CloseLockGood(s, t, alias, force, c);
    case CloseRead(alias, force, found) => CloseReadGood(s, t, alias, force, found, c);
    case CloseMark(alias, force, id) => CloseMarkGood(s, t, alias, force, id, c);
    case CloseSettle(alias, force, id) => CloseSettleGood(s, t, alias, force, id);
    case RetryLock(alias) => RetryLockGood(s, t, alias, c);
    case RetryRead(alias, seen) => RetryReadGood(s, t, alias, seen, c);
    case RetrySettle(alias, id, row) => RetrySettleGood(s, t, alias, id, row, c);
    case RetrySleep(alias, id, row) => RetrySleepGood(s, t, alias, id, row, c);
    case RetryCheck(alias, gone) => RetryCheckGood(s, t, alias, gone, c);
  }

  lemma RollbackGood(s: State, t: TaskId, alias: Alias)
    requires Due(s, t, OpenRollback(alias))
    ensures Good(s, Leave(s, t, alias), ByTask(t))
  {
    hide Good, RowsOk, TablesOk;
    LeaveGood(s, t, alias);
  }

  lemma ExitMarkGood(s: State, t: TaskId, alias: Alias, id: SessionId)
    requires Due(s, t, ExitMark(alias, id))
    ensures Good(s, Leave(s, t, alias), ByTask(t))
  {
    hide Good, RowsOk, TablesOk;
    LeaveGood(s, t, alias);
  }

  lemma ExitStepGood(s: State, t: TaskId, c: Choice)
    requires Inv(s) && t in s.tasks && IsExit(s.tasks[t])
    ensures Good(s, StepTask(s, t, c), ByTask(t))
  {
    hide Good, Shared, TaskOk, OpenOk;
    hide StepExitRead, StepExitLock, StepExitCheck, StepExitClosing, StepExitWait, StepExitFresh, StepExitGiveUp;
    hide StepExitFinal;
    assert Due(s, t, s.tasks[t]);
    match s.tasks[t]
    case ExitRead(alias, id, tunnel, found) => ExitReadGood(s, t, alias, id, tunnel, found, c);
    case ExitLock(alias, id, tunnel) => ExitLockGood(s, t, alias, id, tunnel, c);
    case ExitCheck(alias, id, tunnel, latest) => ExitCheckGood(s, t, alias, id, tunnel, latest, c);
    case ExitClosing(alias, id, tunnel) => ExitClosingGood(s, t, alias, id, tunnel, c);
    case ExitWait(alias, id) => ExitWaitGood(s, t, alias, id, c);
    case ExitFresh(alias, id, latest) => ExitFreshGood(s, t, alias, id, latest, c);
    case ExitGiveUp(alias, id) => ExitGiveUpGood(s, t, alias, id, c);
    case ExitFinal(alias, id, latest) => ExitFinalGood(s, t, alias, id, latest, c);
    case ExitMark(alias, id) => ExitMarkGood(s, t, alias, id);
  }

  lemma RecoverStepGood(s: State, t: TaskId, c: Choice)
    requires Inv(s) && t in s.tasks && IsRecover(s.tasks[t])
    ensures Good(s, StepTask(s, t, c), ByTask(t))
  {
    hide Good, Shared, TaskOk, OpenOk;
    hide StepRecoverNext, StepRecoverInspect, StepRecoverDelete, StepRecoverClear;
    assert Due(s, t, s.tasks[t]);
    var task := s.tasks[t];
    if task.RecoverNext? {
      RecoverNextGood(s, t, task.todo, c);
    } else if task.RecoverInspect? {
      RecoverInspectGood(s, t, task.alias, task.id, task.op, task.todo, c);
    } else if task.RecoverClear? {
      RecoverClearGood(s, t, task.alias, task.id, task.todo);
    } else if task.RecoverDelete? {
      RecoverReleaseGood(s, t, task.alias, task.id, task.todo);
    } else {
      RecoverMarkGood(s, t, task.alias, task.id, task.todo);
    }
  }

  lemma ShutStepGood(
    s: State, t: TaskId, alias: Alias, caller: ShutFor, id: SessionId, op: nat, at: ShutStep, c: Choice)
    requires Due(s, t, Shut(alias, caller, id, op, at))
    ensures Good(s, StepShut(s, t, alias, caller, id, op, at, c), ByTask(t))
  {
    hide Good, Due, StepShut;
    match at
    case ShutStart => ShutBeginsGood(s, t, alias, caller, id, op, at, c);
    case ShutRead(_) => ShutBeginsGood(s, t, alias, caller, id, op, at, c);
    case ShutRemote(row, tunnel) => ShutRemoteGood(s, t, alias, caller, id, op, row, tunnel, c);
    case ShutClosing(_, _, _) => ShutClosingGood(s, t, alias, caller, id, op, at, c);
    case ShutClosed(_, _, _) => ShutClosedGood(s, t, alias, caller, id, op, at, c);
    case ShutCleared(_, _) => ShutClearedGood(s, t, alias, caller, id, op, at, c);
    case _ => ShutEndsGood(s, t, alias, caller, id, op, at, c);
  }

  lemma AttachStepGood(
    s: State, t: TaskId, alias: Alias, on: AttachFor, id: SessionId, row: Row, op: nat, step: AttachStep, c: Choice)
    requires Due(s, t, Attach(alias, on, id, row, op, step))
    ensures Good(s, StepAttach(s, t, alias, on, id, row, op, step, c), ByTask(t))
  {
    hide Good, Due, StepAttach;
    match step
    case AttachBegin(eligible) => AttachBeginGood(s, t, alias, on, id, row, op, eligible, c);
    case AttachComplete(completed, port) => AttachCompleteGood(s, t, alias, on, id, row, op, completed, port, c);
    case AttachRead(found) => AttachReadGood(s, t, alias, on, id, row, op, found, c);
  }

  lemma TaskStepGood(s: State, t: TaskId, c: Choice)
    requires Inv(s) && t in s.tasks
    ensures Good(s, StepTask(s, t, c), ByTask(t))
  {
    hide Good, Shared, TaskOk, OpenOk, StepShut, StepAttach;
    var task := s.tasks[t];
    if IsOpen(task) || IsClose(task) || IsRetry(task) {
      RequestStepGood(s, t, c);
    } else if IsExit(task) {
      ExitStepGood(s, t, c);
    } else if IsRecover(task) {
      RecoverStepGood(s, t, c);
    } else {
      assert Due(s, t, task);
      if task.Shut? {
        ShutStepGood(s, t, task.alias, task.caller, task.id, task.op, task.at, c);
      } else {
        AttachStepGood(s, t, task.alias, task.on, task.id, task.row, task.op, task.step, c);
      }
    }
  }

  ghost function ActorOf(e: Event): Actor {
    match e
    case Turn(t, _) => ByTask(t)
    case OpenTurn(id, _) => ByOpen(id)
    case _ => ByWorld
  }

  /** Every step but a restart keeps the invariant and spares what other tasks rely on. */
  lemma StepGood(s: State, e: Event)
    requires Inv(s) && !e.Restart? && Apply(s, e) != s
    ensures Good(s, Apply(s, e), ActorOf(e))
  {
    hide Good, Shared, TaskOk, OpenOk, StepTask, StepOpen, StepConnected, StepDisconnected;
    match e
    case Turn(t, c) => TaskStepGood(s, t, c);
    case OpenTurn(id, c) => OpenStepGood(s, id, c);
    case CallOpen(alias) => CallGood(s, OpenLock(alias));
    case CallClose(alias, force) => CallGood(s, CloseLock(alias, force));
    case CallRetry(alias) => CallGood(s, RetryLock(alias));
    case TunnelDown(k) => TunnelDownGood(s, k);
    case Connected(id) => ConnectedGood(s, id);
    case Disconnected(id) => DisconnectedGood(s, id);
    case TimerGone(id) => TimerGoneGood(s, id);
  }

  lemma CallGood(s: State, task: Task)
    requires Shared(s) && (task.OpenLock? || task.CloseLock? || (task.RetryLock? && s.recoverer.None?))
    ensures Good(s, Spawn(s, task), ByWorld)
  {
    hide Good, Shared;
    SpawnGood(s, task);
  }

  lemma RestartInv(s: State, order: seq<Found>)
    requires Inv(s) && Lists(s.rows, order)
    ensures Inv(Apply(s, Restart(order)))
  {
    hide Inv, Shared, Lists, Boot;
    assert Shared(s) by { SharedOf(s); }
    PartsOf(s);
    BootInv(s.rows, order, s.names, s.launched, s.log, s.next, s.capacity);
  }

  lemma SharedOf(s: State)
    requires Inv(s)
    ensures Shared(s)
  {
    hide Shared, TaskOk, OpenOk;
  }

  lemma PartsOf(s: State)
    requires Shared(s)
    ensures RowsWellFormed(s.rows, s.names) && LogJustified(s.log) && NamesFresh(s.names, s.next)
  {
    hide LogJustified, NamesFresh, RowsNamed, OneRowPerAlias, CloseIntent;
  }

  lemma ApplyKeepsInv(s: State, e: Event)
    requires Inv(s)
    ensures Inv(Apply(s, e))
  {
    if Apply(s, e) != s {
      hide Inv, Good, Apply;
      if e.Restart? {
        RestartApplies(s, e);
        RestartInv(s, e.order);
      } else {
        StepGood(s, e);
        GoodStepKeepsInv(s, Apply(s, e), ActorOf(e));
      }
    }
  }

  lemma RestartApplies(s: State, e: Event)
    requires e.Restart? && Apply(s, e) != s
    ensures Lists(s.rows, e.order)
  {
  }

  /** Every state of every run satisfies the invariant. */
  lemma {:induction false} RunInv(s: State, events: seq<Event>)
    requires Initial(s)
    ensures Inv(Run(s, events))
    decreases |events|
  {
    hide Inv, Apply;
    if events == [] {
      InitialInv(s);
    } else {
      RunInv(s, events[..|events| - 1]);
      ApplyKeepsInv(Run(s, events[..|events| - 1]), events[|events| - 1]);
    }
  }
}
