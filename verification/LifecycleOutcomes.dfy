/** When a session's row is deleted, in terms of what the operation's awaits were answered. */
module LifecycleOutcomes {
  import opened Wrappers
  import opened Records
  import opened Lifecycle
  import opened LifecycleInvariant
  import opened LifecycleTheorems
  import opened LifecycleSafety
  import opened LifecycleEffects

  /** What the closes of a run have been through: the numbers of those that took a tunnel out of _tunnels, of
      those that were told of an error, and the aliases whose forced close was asked for. */
  datatype Heard = Heard(took: set<nat>, upset: set<nat>, forced: set<Alias>)

  /** The remote part is told that something did not end well. */
  predicate RemoteUpset(row: Row, c: Choice) {
    && !CanCloseWithoutInspection(row)
    && (!c.connected || ((row.identity.pid.Some? || c.inspection.running) && !c.stopped) || !c.removed)
  }

  ghost function HearClose(q: State, id: SessionId, op: nat, at: ShutStep, c: Choice, h: Heard): Heard {
    match at
    case ShutRead(Some(_)) => if id in q.tunnels then h.(took := h.took + {op}) else h
    case ShutRemote(row, _) => if RemoteUpset(row, c) then h.(upset := h.upset + {op}) else h
    case ShutClosing(_, _, _) =>
      if !c.closed || (op in h.took && !c.drained) then h.(upset := h.upset + {op}) else h
    case _ => h
  }

  ghost function Hear(q: State, e: Event, h: Heard): Heard {
    match e
    case Turn(t, c) =>
      if t in q.tasks && q.tasks[t].Shut? && !c.cancelled then
        HearClose(q, q.tasks[t].id, q.tasks[t].op, q.tasks[t].at, c, h)
      else h
    case CallClose(alias, true) => if q.recoverer.None? then h.(forced := h.forced + {alias}) else h
    case _ => h
  }

  ghost function HeardIn(s: State, events: seq<Event>): Heard {
    if events == [] then Heard({}, {}, {})
    else
      var before := events[..|events| - 1];
      Hear(Run(s, before), events[|events| - 1], HeardIn(s, before))
  }

  // ---- the flags a close carries tell what it heard ------------------------

  ghost predicate CloseTells(h: Heard, op: nat, caller: ShutFor, at: ShutStep) {
    match at
    case ShutStart => op !in h.took && op !in h.upset
    case ShutRead(_) => op !in h.took && op !in h.upset
    case ShutRemote(_, tunnel) => (tunnel <==> op in h.took) && op !in h.upset
    case ShutClosing(absent, failed, tunnel) =>
      (tunnel <==> op in h.took) && (failed || !absent <==> op in h.upset)
    case ShutClosed(absent, failed, _) => failed || !absent <==> op in h.upset
    case ShutCleared(absent, failed) => failed || !absent <==> op in h.upset
    case _ => true
  }

  ghost predicate TaskTells(q: State, h: Heard, task: Task) {
    && (Op(task).Some? ==> Op(task).value < q.next)
    && (task.Shut? ==> CloseTells(h, task.op, task.caller, task.at))
    && (Op(task).Some? && !task.Shut? ==> Op(task).value !in h.upset)
    && (Forces(task) ==> task.alias in h.forced)
  }

  ghost predicate EntryTells(q: State, h: Heard, act: Act) {
    act.Deleted? ==>
      && act.op < q.next
      && (act.forced ==> act.id in q.names && q.names[act.id] in h.forced)
      && (!act.forced ==> act.op !in h.upset)
  }

  /** A close that has logged its deletion is over but for the release. */
  ghost predicate EntryEnds(task: Task, act: Act) {
    act.Deleted? && task.Shut? && task.op == act.op ==> task.at.ShutDelete?
  }

  ghost predicate OpsDiffer(tasks: map<TaskId, Task>) {
    forall t, u :: t in tasks && u in tasks && Op(tasks[t]).Some? && Op(tasks[t]) == Op(tasks[u]) ==> t == u
  }

  ghost predicate HeardBelow(h: Heard, next: nat) {
    (forall op :: op in h.took ==> op < next) && (forall op :: op in h.upset ==> op < next)
  }

  ghost predicate Told(q: State, h: Heard) {
    && HeardBelow(h, q.next)
    && OpsDiffer(q.tasks)
    && (forall t :: t in q.tasks ==> TaskTells(q, h, q.tasks[t]))
    && (forall act :: act in q.log ==> EntryTells(q, h, act))
    && (forall t, act :: t in q.tasks && act in q.log ==> EntryEnds(q.tasks[t], act))
  }

  lemma SameTaskTells(q: State, q': State, h: Heard, task: Task)
    requires TaskTells(q, h, task) && q'.next >= q.next
    ensures TaskTells(q', h, task)
  {
    hide CloseTells, Op, Forces;
  }

  lemma SameEntryTells(q: State, q': State, h: Heard, act: Act)
    requires EntryTells(q, h, act) && q'.next >= q.next && KeepsNames(q, q'.names)
    ensures EntryTells(q', h, act)
  {
  }

  /** A task that follows another of its operation tells what it told; one that begins has heard nothing. */
  lemma FollowerTells(q: State, next: nat, h: Heard, before: Option<Task>, task: Task, q': State)
    requires HeardBelow(h, q.next) && q'.next == next >= q.next
    requires before.Some? ==> TaskTells(q, h, before.value)
    requires Follows(q, next, before, task) && (before.Some? ==> !before.value.Shut?)
    ensures TaskTells(q', h, task)
  {
  }

  lemma FollowersDiffer(q: State, tasks: map<TaskId, Task>, next: nat, t: TaskId)
    requires OpsDiffer(q.tasks) && TasksFollow(q, tasks, next, t) && t in q.tasks
    requires forall u :: u in q.tasks && Op(q.tasks[u]).Some? ==> Op(q.tasks[u]).value < q.next
    ensures OpsDiffer(tasks)
  {
  }

  lemma OpsBelow(q: State, h: Heard)
    requires forall t :: t in q.tasks ==> TaskTells(q, h, q.tasks[t])
    ensures forall u :: u in q.tasks && Op(q.tasks[u]).Some? ==> Op(q.tasks[u]).value < q.next
  {
    hide CloseTells, Op, Forces;
  }

  lemma NewEntryTells(q: State, q': State, h: Heard, task: Task, act: Act)
    requires TaskTells(q, h, task) && !task.Shut? && q'.next >= q.next
    requires act.Deleted? ==> !act.forced && Op(task) == Some(act.op)
    ensures EntryTells(q', h, act)
  {
  }

  /** A step that is no turn of a close and logs at most deletions of its own operation. */
  lemma EffectTells(q: State, q': State, t: TaskId, acts: seq<Act>, h: Heard)
    requires Told(q, h) && t in q.tasks && !q.tasks[t].Shut? && Effect(q, q', t, acts) && KeepsNames(q, q'.names)
    requires forall act :: act in acts && act.Deleted? ==> !act.forced && Op(q.tasks[t]) == Some(act.op)
    ensures Told(q', h)
  {
    hide TaskTells, EntryTells, EntryEnds, Follows, KeepsNames, CodesKept, NoneReady, OpsDiffer, TasksFollow, Op;
    OpsBelow(q, h);
    FollowersDiffer(q, q'.tasks, q'.next, t);
    forall u | u in q'.tasks ensures TaskTells(q', h, q'.tasks[u]) { FollowTells(q, q', t, u, h); }
    forall act | act in q'.log ensures EntryTells(q', h, act) {
      if act in q.log { SameEntryTells(q, q', h, act); } else { NewEntryTells(q, q', h, q.tasks[t], act); }
    }
    forall u, act | u in q'.tasks && act in q'.log ensures EntryEnds(q'.tasks[u], act) {
      EntryStillEnds(q, q', t, acts, h, u, act);
    }
  }

  lemma FollowTells(q: State, q': State, t: TaskId, u: TaskId, h: Heard)
    requires HeardBelow(h, q.next) && q'.next >= q.next
    requires forall v :: v in q.tasks ==> TaskTells(q, h, q.tasks[v])
    requires t in q.tasks && !q.tasks[t].Shut? && TasksFollow(q, q'.tasks, q'.next, t) && u in q'.tasks
    ensures TaskTells(q', h, q'.tasks[u])
  {
    hide TaskTells, Follows;
    if u in q.tasks && u != t {
      SameTaskTells(q, q', h, q.tasks[u]);
    } else {
      FollowerTells(q, q'.next, h, if u == t then Some(q.tasks[t]) else None, q'.tasks[u], q');
    }
  }

  lemma EntryStillEnds(q: State, q': State, t: TaskId, acts: seq<Act>, h: Heard, u: TaskId, act: Act)
    requires OpsDiffer(q.tasks) && t in q.tasks && !q.tasks[t].Shut? && TasksFollow(q, q'.tasks, q'.next, t)
    requires forall v :: v in q.tasks && Op(q.tasks[v]).Some? ==> Op(q.tasks[v]).value < q.next
    requires u in q'.tasks && act in q.log + acts
    requires act in q.log ==> EntryTells(q, h, act) && forall v :: v in q.tasks ==> EntryEnds(q.tasks[v], act)
    requires act in acts && act.Deleted? ==> Op(q.tasks[t]) == Some(act.op)
    ensures EntryEnds(q'.tasks[u], act)
  {
  }

  // ---- turns of a close ----------------------------------------------------

  /** One turn of a close, in terms of what it then tells. */
  lemma CloseTurnTells(
    q: State, q': State, t: TaskId, task: Task, c: Choice, next: Option<ShutStep>, h: Heard, h': Heard)
    requires task.Shut? && TaskTells(q, h, task) && ShutTurn(q, q', t, task, c, next)
    requires h' == if c.cancelled then h else HearClose(q, task.id, task.op, task.at, c, h)
    ensures next.Some? ==> CloseTells(h', task.op, task.caller, next.value)
    ensures forall act :: act in q'.log && act !in q.log && act.Deleted? ==>
      && act == Deleted(task.op, task.id, task.caller.Forced?) && next == Some(ShutDelete)
      && (task.caller.Forced? || task.op !in h'.upset)
    ensures h'.forced == h.forced
    ensures h.took <= h'.took <= h.took + {task.op} && h.upset <= h'.upset <= h.upset + {task.op}
    ensures h'.upset != h.upset ==> !task.at.ShutDelete?
    ensures task.at.ShutDelete? ==> next == None
  {
    hide CodesKept, NoneReady, ShutTasks, CanCloseWithoutInspection;
  }

  lemma OtherTaskTells(q: State, q': State, h: Heard, h': Heard, op: nat, task: Task)
    requires TaskTells(q, h, task) && q'.next >= q.next && Op(task) != Some(op)
    requires h.forced <= h'.forced && h.took <= h'.took <= h.took + {op} && h.upset <= h'.upset <= h.upset + {op}
    ensures TaskTells(q', h', task)
  {
  }

  lemma OtherEntryTells(q: State, q': State, h: Heard, h': Heard, op: nat, act: Act)
    requires EntryTells(q, h, act) && q'.next >= q.next && KeepsNames(q, q'.names)
    requires h.forced <= h'.forced && h.upset <= h'.upset <= h.upset + {op}
    requires act.Deleted? && act.op == op ==> h'.upset == h.upset
    ensures EntryTells(q', h', act)
  {
  }

  lemma CloseTurnDiffers(q: State, tasks: map<TaskId, Task>, t: TaskId, next: Option<ShutStep>)
    requires OpsDiffer(q.tasks) && t in q.tasks && q.tasks[t].Shut? && ShutTasks(q, tasks, t, q.tasks[t], next)
    ensures OpsDiffer(tasks)
  {
  }

  lemma CloseTellsOn(q: State, q': State, t: TaskId, c: Choice, next: Option<ShutStep>, h: Heard, h': Heard)
    requires Told(q, h) && t in q.tasks && q.tasks[t].Shut? && KeepsNames(q, q'.names)
    requires Known(q, q.tasks[t].id, q.tasks[t].alias)
    requires ShutTurn(q, q', t, q.tasks[t], c, next)
    requires var task := q.tasks[t]; h' == if c.cancelled then h else HearClose(q, task.id, task.op, task.at, c, h)
    ensures Told(q', h')
  {
    hide TaskTells, EntryTells, EntryEnds, OpsDiffer, ShutTurn, HearClose, KeepsNames, Op, Forces;
    var task := q.tasks[t];
    CloseTurnTells(q, q', t, task, c, next, h, h');
    CloseTurnParts(q, q', t, task, c, next);
    CloseTurnDiffers(q, q'.tasks, t, next);
    OpsBelow(q, h);
    assert HeardBelow(h', q'.next) by { CloseBelow(q, t, h, h', q'.next); }
    forall u | u in q'.tasks ensures TaskTells(q', h', q'.tasks[u]) {
      CloseTaskTells(q, q', t, next, h, h', u);
    }
    forall act | act in q'.log ensures EntryTells(q', h', act) {
      if act in q.log {
        assert EntryEnds(task, act);
        CloseOldEntry(q, q', h, h', task, act);
      } else {
        CloseNewEntry(q, q', h, h', task, act);
      }
    }
    forall u, act | u in q'.tasks && act in q'.log ensures EntryEnds(q'.tasks[u], act) {
      CloseEntryEnds(q, q', t, next, act, u);
    }
  }

  lemma CloseTurnParts(q: State, q': State, t: TaskId, task: Task, c: Choice, next: Option<ShutStep>)
    requires task.Shut? && ShutTurn(q, q', t, task, c, next)
    ensures ShutTasks(q, q'.tasks, t, task, next) && q'.next >= q.next
  {
    hide ShutLeads, ShutTasks, CodesKept, NoneReady, ShutActs;
  }

  lemma CloseBelow(q: State, t: TaskId, h: Heard, h': Heard, next: nat)
    requires t in q.tasks && q.tasks[t].Shut? && HeardBelow(h, q.next) && next >= q.next && TaskTells(q, h, q.tasks[t])
    requires h'.took <= h.took + {q.tasks[t].op} && h'.upset <= h.upset + {q.tasks[t].op}
    ensures HeardBelow(h', next)
  {
    hide CloseTells;
  }

  lemma CloseTaskTells(
    q: State, q': State, t: TaskId, next: Option<ShutStep>, h: Heard, h': Heard, u: TaskId)
    requires OpsDiffer(q.tasks) && t in q.tasks && q.tasks[t].Shut? && q'.next >= q.next
    requires forall v :: v in q.tasks ==> TaskTells(q, h, q.tasks[v])
    requires ShutTasks(q, q'.tasks, t, q.tasks[t], next) && u in q'.tasks
    requires next.Some? ==> CloseTells(h', q.tasks[t].op, q.tasks[t].caller, next.value)
    requires var op := q.tasks[t].op;
      h'.forced == h.forced && h.took <= h'.took <= h.took + {op} && h.upset <= h'.upset <= h.upset + {op}
    ensures TaskTells(q', h', q'.tasks[u])
  {
    hide CloseTells;
    if u != t {
      OtherTaskTells(q, q', h, h', q.tasks[t].op, q.tasks[u]);
    } else {
      assert TaskTells(q, h, q.tasks[t]);
    }
  }

  lemma CloseOldEntry(q: State, q': State, h: Heard, h': Heard, task: Task, act: Act)
    requires task.Shut? && EntryTells(q, h, act) && EntryEnds(task, act) && q'.next >= q.next && KeepsNames(q, q'.names)
    requires h'.forced == h.forced && h.upset <= h'.upset <= h.upset + {task.op}
    requires h'.upset != h.upset ==> !task.at.ShutDelete?
    ensures EntryTells(q', h', act)
  {
    OtherEntryTells(q, q', h, h', task.op, act);
  }

  lemma CloseNewEntry(q: State, q': State, h: Heard, h': Heard, task: Task, act: Act)
    requires task.Shut? && TaskTells(q, h, task) && Known(q, task.id, task.alias)
    requires act.Deleted? ==>
      act == Deleted(task.op, task.id, task.caller.Forced?) && (task.caller.Forced? || task.op !in h'.upset)
    requires h'.forced == h.forced && q'.next >= q.next && KeepsNames(q, q'.names)
    ensures EntryTells(q', h', act)
  {
    hide CloseTells;
  }

  lemma CloseEntryEnds(q: State, q': State, t: TaskId, next: Option<ShutStep>, act: Act, u: TaskId)
    requires OpsDiffer(q.tasks) && t in q.tasks && q.tasks[t].Shut? && ShutTasks(q, q'.tasks, t, q.tasks[t], next)
    requires u in q'.tasks && act in q'.log
    requires act in q.log ==> forall v :: v in q.tasks ==> EntryEnds(q.tasks[v], act)
    requires q.tasks[t].at.ShutDelete? ==> next == None
    requires act !in q.log && act.Deleted? ==> act.op == q.tasks[t].op && next == Some(ShutDelete)
    ensures EntryEnds(q'.tasks[u], act)
  {
  }

  // ---- whole runs ----------------------------------------------------------

  lemma ActsDelete(q: State, task: Task, c: Choice, act: Act)
    requires !task.Shut? && act in TaskActs(q, task, c) && act.Deleted?
    ensures !act.forced && Op(task) == Some(act.op)
  {
  }

  lemma TurnTells(q: State, t: TaskId, c: Choice, h: Heard)
    requires Inv(q) && Told(q, h) && t in q.tasks && KeepsNames(q, StepTask(q, t, c).names)
    ensures Told(StepTask(q, t, c), Hear(q, Turn(t, c), h))
  {
    hide Inv, Told, KeepsNames, StepTask, HearClose, Effect, ShutTurn, Full, TaskActs, Completes;
    var task, q' := q.tasks[t], StepTask(q, t, c);
    TasksOf(q, t);
    if task.Shut? {
      ShutTurnHolds(q, t, task.alias, task.caller, task.id, task.op, task.at, c);
      ShutSteps(q, t, c);
      CloseTellsOn(q, q', t, c, NextStep(q', t, task), h, Hear(q, Turn(t, c), h));
    } else if task.OpenInsert? && !c.cancelled && !Full(q) {
      AcquireTurn(q, t, task.alias, task.id, c);
      AcquireTells(q, q', t, h);
    } else if Completes(task, c) {
      CompleteTurn(q, t, task, c);
      CompleteTells(q, q', t, task, c, h);
    } else {
      TurnHasEffect(q, t, c);
      forall act | act in TaskActs(q, task, c) && act.Deleted? ensures !act.forced && Op(task) == Some(act.op) {
        ActsDelete(q, task, c, act);
      }
      EffectTells(q, q', t, TaskActs(q, task, c), h);
    }
  }

  lemma CompleteTells(q: State, q': State, t: TaskId, task: Task, c: Choice, h: Heard)
    requires Told(q, h) && t in q.tasks && q.tasks[t] == task && KeepsNames(q, q'.names) && Completes(task, c)
    requires Effect(q, q'.(rows := q.rows), t, TaskActs(q, task, c))
    ensures Told(q', h)
  {
    hide Told, Effect, KeepsNames, Completes, TaskActs;
    CompletesAlone(q, task, c);
    EffectTells(q, q'.(rows := q.rows), t, TaskActs(q, task, c), h);
    RowsTellNothing(q'.(rows := q.rows), q', h);
  }

  lemma CompletesAlone(q: State, task: Task, c: Choice)
    requires Completes(task, c)
    ensures !task.Shut? && TaskActs(q, task, c) == []
  {
  }

  lemma RowsTellNothing(q: State, q': State, h: Heard)
    requires Told(q, h) && q' == q.(rows := q'.rows)
    ensures Told(q', h)
  {
    hide CloseTells, EntryEnds;
  }

  lemma TasksOf(q: State, t: TaskId)
    requires Inv(q) && t in q.tasks
    ensures TasksFresh(q.tasks, q.next)
    ensures q.tasks[t].Shut? ==> Known(q, q.tasks[t].id, q.tasks[t].alias)
  {
    hide RowsOk, TablesOk, LogJustified, OpenOk, TasksFresh, StartsAwaited;
    assert TaskOk(q, t, q.tasks[t]);
  }

  lemma ShutSteps(q: State, t: TaskId, c: Choice)
    requires t in q.tasks && q.tasks[t].Shut?
    ensures var task := q.tasks[t];
      StepTask(q, t, c) == StepShut(q, t, task.alias, task.caller, task.id, task.op, task.at, c)
  {
    hide StepShut;
  }

  lemma AcquireTells(q: State, q': State, t: TaskId, h: Heard)
    requires Told(q, h) && q'.tasks == q.tasks - {t} && q'.log == q.log && q'.next == q.next && KeepsNames(q, q'.names)
    ensures Told(q', h)
  {
    hide TaskTells, EntryTells, EntryEnds;
    forall u | u in q'.tasks ensures TaskTells(q', h, q'.tasks[u]) { SameTaskTells(q, q', h, q.tasks[u]); }
    forall act | act in q'.log ensures EntryTells(q', h, act) { SameEntryTells(q, q', h, act); }
  }

  /** The world's events, a start task's turns and requests run no closing operation. */
  lemma WorldTells(q: State, q': State, h: Heard, h': Heard, task: Option<Task>)
    requires Told(q, h) && q'.log == q.log && q'.next >= q.next && KeepsNames(q, q'.names)
    requires q'.tasks == if task.Some? then q.tasks[q.next := task.value] else q.tasks
    requires h' == h.(forced := h'.forced) && h.forced <= h'.forced
    requires task.Some? ==> Op(task.value).None? && (Forces(task.value) ==> task.value.alias in h'.forced)
    ensures Told(q', h')
  {
    hide EntryTells, EntryEnds, TaskTells, KeepsNames;
    forall u | u in q'.tasks ensures TaskTells(q', h', q'.tasks[u]) {
      if task.Some? && u == q.next { PlainTells(q', h', task.value); } else { HeardMore(q, q', h, h', q.tasks[u]); }
    }
    forall act | act in q'.log ensures EntryTells(q', h', act) { OtherEntryTells(q, q', h, h', 0, act); }
    forall u, act | u in q'.tasks && act in q'.log ensures EntryEnds(q'.tasks[u], act) {
      if task.Some? && u == q.next { PlainEnds(task.value, act); } else { assert EntryEnds(q.tasks[u], act); }
    }
  }

  lemma PlainTells(q: State, h: Heard, task: Task)
    requires Op(task).None? && (Forces(task) ==> task.alias in h.forced)
    ensures TaskTells(q, h, task)
  {
  }

  lemma PlainEnds(task: Task, act: Act)
    requires Op(task).None?
    ensures EntryEnds(task, act)
  {
  }

  lemma HeardMore(q: State, q': State, h: Heard, h': Heard, task: Task)
    requires TaskTells(q, h, task) && q'.next >= q.next && h' == h.(forced := h'.forced) && h.forced <= h'.forced
    ensures TaskTells(q', h', task)
  {
  }

  lemma EventTells(q: State, e: Event, h: Heard)
    requires Inv(q) && Told(q, h) && !e.Turn? && !e.Restart? && KeepsNames(q, Apply(q, e).names)
    ensures Told(Apply(q, e), Hear(q, e, h))
  {
    hide Inv, Told, KeepsNames, StepOpen, StepConnected, StepDisconnected;
    if e.OpenTurn? {
      OpenTurnTells(q, e.id, e.answers, h);
    } else if e.CallOpen? {
      CallTells(q, Apply(q, e), h, h, OpenLock(e.alias));
    } else if e.CallClose? {
      CallTells(q, Apply(q, e), h, Hear(q, e, h), CloseLock(e.alias, e.force));
    } else if e.CallRetry? {
      CallTells(q, Apply(q, e), h, h, RetryLock(e.alias));
    } else if e.TunnelDown? {
      DownTells(q, e.tunnel, h);
    } else {
      TablesTell(q, e, h);
    }
  }

  lemma OpenTurnTells(q: State, id: SessionId, c: Choice, h: Heard)
    requires Told(q, h) && KeepsNames(q, Apply(q, OpenTurn(id, c)).names)
    ensures Told(Apply(q, OpenTurn(id, c)), h)
  {
    hide Told, KeepsNames, StepOpen, OpenGoesOn, OpenCodes;
    if id in q.opens { OpenHasEffects(q, id, c); }
    WorldTells(q, Apply(q, OpenTurn(id, c)), h, h, None);
  }

  lemma CallTells(q: State, q': State, h: Heard, h': Heard, task: Task)
    requires Told(q, h) && (q' == q || q' == Spawn(q, task)) && KeepsNames(q, q'.names)
    requires h' == h.(forced := h'.forced) && h.forced <= h'.forced
    requires Op(task).None? && (Forces(task) && q' != q ==> task.alias in h'.forced)
    ensures Told(q', h')
  {
    hide Told, KeepsNames;
    WorldTells(q, q', h, h', if q' == q then None else Some(task));
  }

  lemma TablesTell(q: State, e: Event, h: Heard)
    requires Told(q, h) && KeepsNames(q, Apply(q, e).names) && (e.Connected? || e.Disconnected? || e.TimerGone?)
    ensures Told(Apply(q, e), h)
  {
    hide Told, KeepsNames, StepConnected, StepDisconnected;
    ConnectedOnly(q, e.id);
    DisconnectedOnly(q, e.id);
    WorldTells(q, Apply(q, e), h, h, None);
  }

  lemma ConnectedOnly(q: State, id: SessionId)
    ensures var q' := StepConnected(q, id); q'.tasks == q.tasks && q'.log == q.log && q'.next == q.next
  {
    if q.recoverer.None? && id in q.owned {
      var counts := q.counts[id := (if id in q.counts then q.counts[id] else 0) + 1];
      assert StepConnected(q, id) == q.(timers := q.timers - {id}, counts := counts);
    }
  }

  lemma DisconnectedOnly(q: State, id: SessionId)
    ensures var q' := StepDisconnected(q, id); q'.tasks == q.tasks && q'.log == q.log && q'.next == q.next
  {
    if q.recoverer.None? && id in q.owned {
      var count := if id in q.counts then q.counts[id] else 0;
      var left := if count > 0 then count - 1 else 0;
      var counts := if count > 0 then q.counts[id := left] else q.counts;
      assert StepDisconnected(q, id) == q.(counts := counts, timers := if left == 0 then q.timers + {id} else q.timers);
    }
  }

  lemma DownTells(q: State, k: nat, h: Heard)
    requires Told(q, h) && KeepsNames(q, Apply(q, TunnelDown(k)).names)
    ensures Told(Apply(q, TunnelDown(k)), h)
  {
    hide Told, KeepsNames;
    var q' := Apply(q, TunnelDown(k));
    if k in q.watched && q.watched[k] in q.names {
      var id := q.watched[k];
      WorldTells(q, q', h, h, Some(ExitRead(q.names[id], id, k, id in q.rows)));
    } else {
      WorldTells(q, q', h, h, None);
    }
  }

  lemma RestartTells(q: State, order: seq<Found>, h: Heard)
    requires Told(q, h)
    ensures Told(Apply(q, Restart(order)), h)
  {
    hide EntryTells, Lists, CloseTells;
    var q' := Apply(q, Restart(order));
    if q' != q {
      assert KeepsNames(q, q'.names);
      forall act | act in q'.log ensures EntryTells(q', h, act) { SameEntryTells(q, q', h, act); }
    }
  }

  lemma StepTells(q: State, e: Event, h: Heard)
    requires Inv(q) && Told(q, h)
    ensures Told(Apply(q, e), Hear(q, e, h))
  {
    hide Inv, Told, Good, HearClose, StepTask, KeepsNames;
    var q' := Apply(q, e);
    if e.Restart? {
      hide Apply;
      RestartTells(q, e.order, h);
    } else {
      StepKeepsNames(q, e);
      if e.Turn? {
        if e.task in q.tasks { TurnTells(q, e.task, e.answers, h); }
      } else {
        hide Apply;
        EventTells(q, e, h);
      }
    }
  }

  lemma StepKeepsNames(q: State, e: Event)
    requires Inv(q) && !e.Restart?
    ensures KeepsNames(q, Apply(q, e).names)
  {
    hide Inv, Good, Apply;
    if Apply(q, e) != q {
      StepGood(q, e);
      GoodOwned(q, Apply(q, e), ActorOf(e));
    }
  }

  lemma InitialTold(s: State)
    requires Initial(s)
    ensures Told(s, HeardIn(s, []))
  {
    hide Lists;
  }

  lemma {:induction false} RunTold(s: State, events: seq<Event>)
    requires Initial(s)
    ensures Told(Run(s, events), HeardIn(s, events))
    decreases |events|
  {
    hide Inv, Told, Apply, Hear, Initial;
    if events == [] {
      InitialTold(s);
    } else {
      var before := events[..|events| - 1];
      RunTold(s, before);
      RunInv(s, before);
      StepTells(Run(s, before), events[|events| - 1], HeardIn(s, before));
    }
  }

  /** In every run: a deletion without force is the work of an operation that was told of no error, and a forced
      one was asked for. */
  lemma DeletedWithoutErrors(s: State, events: seq<Event>, op: nat, id: SessionId, forced: bool)
    requires Initial(s) && Deleted(op, id, forced) in Run(s, events).log
    ensures !forced ==> op !in HeardIn(s, events).upset
    ensures forced ==> id in Run(s, events).names && Run(s, events).names[id] in HeardIn(s, events).forced
  {
    hide Run, HeardIn, Initial, OpsDiffer, TaskTells, EntryEnds, HeardBelow;
    RunTold(s, events);
    assert EntryTells(Run(s, events), HeardIn(s, events), Deleted(op, id, forced));
  }

  /** A close reaches its end with its row deleted exactly if it is forced or was told of no error; otherwise
      the row, if still there, becomes a STOP_FAILED error that keeps its reason, its identity and its slot. */
  lemma {:induction false} ClosesExactly(s: State, events: seq<Event>, t: TaskId, c: Choice)
    requires Initial(s) && !c.cancelled
    requires var q := Run(s, events); t in q.tasks && q.tasks[t].Shut? && q.tasks[t].at.ShutCleared?
    ensures
      var q, q', task := Run(s, events), Run(s, events + [Turn(t, c)]), Run(s, events).tasks[t];
      var deletes := task.caller.Forced? || task.op !in HeardIn(s, events).upset;
      && (Deleted(task.op, task.id, task.caller.Forced?) in q'.log <==> deletes)
      && (deletes ==> q'.rows == q.rows - {task.id})
      && (!deletes ==> q'.owned == q.owned && q'.rows.Keys == q.rows.Keys && q'.rows - {task.id} == q.rows - {task.id})
      && (!deletes && task.id in q.rows ==>
            q'.rows[task.id] == q.rows[task.id].(state := Error, errorCode := Some(StopFailed)))
  {
    hide Run, HeardIn, Initial, Told, Apply;
    var q, h := Run(s, events), HeardIn(s, events);
    RunTold(s, events);
    RunPrefix(s, events, Turn(t, c));
    ClosesTold(q, t, c, h);
  }

  lemma ClosesTold(q: State, t: TaskId, c: Choice, h: Heard)
    requires Told(q, h) && !c.cancelled && t in q.tasks && q.tasks[t].Shut? && q.tasks[t].at.ShutCleared?
    ensures
      var q', task := Apply(q, Turn(t, c)), q.tasks[t];
      var deletes := task.caller.Forced? || task.op !in h.upset;
      && (Deleted(task.op, task.id, task.caller.Forced?) in q'.log <==> deletes)
      && (deletes ==> q'.rows == q.rows - {task.id})
      && (!deletes ==> q'.owned == q.owned && q'.rows.Keys == q.rows.Keys && q'.rows - {task.id} == q.rows - {task.id})
      && (!deletes && task.id in q.rows ==>
            q'.rows[task.id] == q.rows[task.id].(state := Error, errorCode := Some(StopFailed)))
  {
    hide Apply, OpsDiffer, EntryTells, HeardBelow;
    var task := q.tasks[t];
    assert TaskTells(q, h, task);
    assert forall act :: act in q.log ==> EntryEnds(task, act);
    ConcludesExactly(q, t, task.alias, task.caller, task.id, task.op, task.at.absent, task.at.failed, c);
  }

  lemma ConcludesExactly(
    q: State, t: TaskId, alias: Alias, caller: ShutFor, id: SessionId, op: nat, absent: bool, failed: bool, c: Choice)
    requires t in q.tasks && q.tasks[t] == Shut(alias, caller, id, op, ShutCleared(absent, failed)) && !c.cancelled
    ensures
      var q', deletes := Apply(q, Turn(t, c)), caller.Forced? || !(failed || !absent);
      && q'.log == q.log + (if deletes then [Deleted(op, id, caller.Forced?)] else [])
      && q'.rows == (if deletes then q.rows - {id}
                     else if id in q.rows then q.rows[id := q.rows[id].(state := Error, errorCode := Some(StopFailed))]
                     else q.rows)
      && q'.owned == q.owned
  {
    hide StepShut;
    Concluding(q, t, alias, caller, id, op, absent, failed, c);
  }

  lemma Concluding(
    q: State, t: TaskId, alias: Alias, caller: ShutFor, id: SessionId, op: nat, absent: bool, failed: bool, c: Choice)
    requires !c.cancelled
    ensures
      var q', deletes := StepShut(q, t, alias, caller, id, op, ShutCleared(absent, failed), c),
                         caller.Forced? || !(failed || !absent);
      && q'.log == q.log + (if deletes then [Deleted(op, id, caller.Forced?)] else [])
      && q'.rows == (if deletes then q.rows - {id}
                     else if id in q.rows then q.rows[id := q.rows[id].(state := Error, errorCode := Some(StopFailed))]
                     else q.rows)
      && q'.owned == q.owned
  {
  }

  // ---- every deletion ------------------------------------------------------

  lemma TurnLogs(q: State, t: TaskId, c: Choice)
    requires t in q.tasks && TasksFresh(q.tasks, q.next)
    ensures StepTask(q, t, c).log == q.log + TaskActs(q, q.tasks[t], c)
  {
    hide StepTask, TasksFresh, TaskActs, Full, Completes, CodesKept, NoneReady, TasksFollow, ShutLeads, ShutTasks;
    hide NextStep;
    var task := q.tasks[t];
    NoActs(q, task, c);
    if task.Shut? {
      ShutTurnHolds(q, t, task.alias, task.caller, task.id, task.op, task.at, c);
      ShutSteps(q, t, c);
      CloseActs(q, task, c);
    } else if task.OpenInsert? && !c.cancelled && !Full(q) {
      AcquireTurn(q, t, task.alias, task.id, c);
    } else if Completes(task, c) {
      CompleteTurn(q, t, task, c);
    } else {
      TurnHasEffect(q, t, c);
    }
  }

  lemma CloseActs(q: State, task: Task, c: Choice)
    requires task.Shut?
    ensures TaskActs(q, task, c)
         == if c.cancelled then [] else ShutActs(task.caller, task.id, task.op, task.at, c)
  {
  }

  lemma EventLogs(q: State, e: Event)
    requires !e.Turn?
    ensures Apply(q, e).log == q.log
  {
    hide StepOpen, StepConnected, StepDisconnected, Lists, OpenGoesOn, OpenCodes, Spawn, Boot;
    if e.OpenTurn? {
      if e.id in q.opens { OpenHasEffects(q, e.id, e.answers); }
    } else if e.Connected? {
      ConnectedOnly(q, e.id);
    } else if e.Disconnected? {
      DisconnectedOnly(q, e.id);
    } else if e.Restart? {
      BootLogs(q, e.order);
    } else {
      SpawnLogs(q);
    }
  }

  lemma SpawnLogs(q: State)
    ensures forall task :: Spawn(q, task).log == q.log
  {
  }

  lemma BootLogs(q: State, order: seq<Found>)
    ensures Boot(q.rows, order, q.names, q.launched, q.log, q.next, q.capacity).log == q.log
  {
  }

  /** The log grows by exactly what the acting task's answers say. */
  lemma LogIsExact(q: State, e: Event)
    requires Inv(q)
    ensures Apply(q, e).log == q.log + Acts(q, e)
  {
    hide Inv, StepTask, TaskActs;
    if e.Turn? {
      if e.task in q.tasks {
        TasksOf(q, e.task);
        TurnLogs(q, e.task, e.answers);
      }
    } else {
      hide Apply;
      EventLogs(q, e);
    }
  }

  /** The turn deletes the row of `id` without force: a close at its end that was told of no error, or startup
      recovery that found nothing running, removed what was left and closed its chain, and the row is not
      READY. */
  ghost predicate DeletesRow(q: State, h: Heard, e: Event, op: nat, id: SessionId) {
    && e.Turn? && e.task in q.tasks
    && var c := e.answers;
       match q.tasks[e.task]
       case Shut(_, caller, x, o, ShutCleared(_, _)) =>
         x == id && o == op && !caller.Forced? && !c.cancelled && op !in h.upset
       case Attach(_, ByRecovery(_), x, row, o, AttachBegin(true)) =>
         && x == id && o == op && (row.state == Starting || row.state == Error)
         && !c.cancelled && c.connected && !c.inspection.running && c.removed && c.closed
       case RecoverInspect(_, x, o, _) =>
         x == id && o == op && c.connected && !c.inspection.running && c.removed && c.closed
       case _ => false
  }

  lemma {:induction false} DeletesExactly(s: State, events: seq<Event>, e: Event, op: nat, id: SessionId)
    requires Initial(s)
    ensures
      var q, q' := Run(s, events), Run(s, events + [e]);
      && q.log <= q'.log
      && (Deleted(op, id, false) in q'.log[|q.log|..] <==> DeletesRow(q, HeardIn(s, events), e, op, id))
  {
    hide Run, HeardIn, Initial, OpsDiffer, EntryTells, HeardBelow, Inv, EntryEnds, Apply;
    var q, h := Run(s, events), HeardIn(s, events);
    RunTold(s, events);
    RunInv(s, events);
    RunPrefix(s, events, e);
    LogIsExact(q, e);
    assert (q.log + Acts(q, e))[|q.log|..] == Acts(q, e);
    if e.Turn? && e.task in q.tasks {
      assert TaskTells(q, h, q.tasks[e.task]);
      ActsExactly(q, h, e.task, e.answers, op, id);
    }
  }

  lemma ActsExactly(q: State, h: Heard, t: TaskId, c: Choice, op: nat, id: SessionId)
    requires t in q.tasks && TaskTells(q, h, q.tasks[t])
    ensures Deleted(op, id, false) in TaskActs(q, q.tasks[t], c) <==> DeletesRow(q, h, Turn(t, c), op, id)
  {
  }
}
