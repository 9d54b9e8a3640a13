/** The pre-remote-failure rule is sound: where it applies, no remote start was ever asked for. */
module LifecycleStarts {
  import opened Wrappers
  import opened Records
  import opened Lifecycle
  import opened LifecycleInvariant
  import opened LifecycleTheorems
  import opened LifecycleSafety
  import opened LifecycleEffects
  import opened LifecycleOutcomes

  /** No start of `id` was asked for, and none can be: no start task of it is, or will be, on its way there. */
  ghost predicate Unlaunched(q: State, id: SessionId) {
    && id in q.names && id !in q.launched
    && (id in q.opens ==> q.opens[id].phase != Preparing)
    && (forall t :: t in q.tasks && q.tasks[t].OpenInsert? ==> q.tasks[t].id != id)
  }

  /** The row a close has read. */
  ghost function Snapshot(task: Task): Option<Found> {
    if !task.Shut? then None
    else
      match task.at
      case ShutRead(Some(row)) => Some(Found(task.id, row))
      case ShutRemote(row, _) => Some(Found(task.id, row))
      case _ => None
  }

  ghost predicate RowsClear(q: State) {
    forall id :: id in q.rows && PreRemoteCode(q.rows[id]) ==> Unlaunched(q, id)
  }

  ghost predicate TasksClear(q: State) {
    forall t :: t in q.tasks && Snapshot(q.tasks[t]).Some? && PreRemoteCode(Snapshot(q.tasks[t]).value.row) ==>
      Unlaunched(q, Snapshot(q.tasks[t]).value.id)
  }

  ghost predicate OpensClear(q: State) {
    forall id :: id in q.opens && IsPreRemoteFailure(q.opens[id].code) ==>
      id !in q.launched && q.opens[id].phase != Preparing
  }

  ghost predicate LogClear(q: State) {
    forall act :: act in q.log && act.PreRemote? ==> Unlaunched(q, act.id)
  }

  /** Somebody may be about to start a session: a start task before it asks, or an open about to spawn one. */
  ghost predicate MayLaunch(q: State, id: SessionId) {
    || (id in q.opens && q.opens[id].phase == Preparing)
    || (exists t :: t in q.tasks && q.tasks[t].OpenInsert? && q.tasks[t].id == id)
  }

  /** A start is asked for at most once. */
  ghost predicate OnceOnly(q: State) {
    q.launched <= q.names.Keys && forall id :: id in q.launched ==> !MayLaunch(q, id)
  }

  ghost predicate Clear(q: State) {
    RowsClear(q) && TasksClear(q) && OpensClear(q) && LogClear(q) && OnceOnly(q)
  }

  // ---- what one step keeps ---------------------------------------------------

  /** Nobody but these becomes a starter, and only they ask. */
  ghost predicate LaunchesFew(q: State, q': State) {
    && KeepsNames(q, q'.names)
    && (forall id :: id in q.names && MayLaunch(q', id) ==> MayLaunch(q, id))
    && (forall id :: id in q'.launched && id !in q.launched ==> MayLaunch(q, id) && id in q.names && !MayLaunch(q', id))
  }

  lemma StaysOnceOnly(q: State, q': State)
    requires OnceOnly(q) && LaunchesFew(q, q')
    ensures OnceOnly(q')
  {
    hide MayLaunch;
  }

  lemma StaysUnlaunched(q: State, q': State, id: SessionId)
    requires Unlaunched(q, id) && LaunchesFew(q, q')
    ensures Unlaunched(q', id)
  {
    assert !MayLaunch(q, id);
  }

  lemma EffectLaunchesFew(q: State, q': State, t: TaskId, acts: seq<Act>)
    requires Effect(q, q', t, acts) && KeepsNames(q, q'.names) && NamesFresh(q.names, q.next) && t in q.tasks
    ensures LaunchesFew(q, q')
  {
    hide CodesKept, NoneReady, Begins, Forces;
    forall id | id in q.names && MayLaunch(q', id) ensures MayLaunch(q, id) {
      if u :| u in q'.tasks && q'.tasks[u].OpenInsert? && q'.tasks[u].id == id {
        InsertsStay(q, q', t, u);
      }
    }
  }

  lemma InsertsStay(q: State, q': State, t: TaskId, u: TaskId)
    requires TasksFollow(q, q'.tasks, q'.next, t) && t in q.tasks
    requires u in q'.tasks && q'.tasks[u].OpenInsert? && q'.tasks[u].id < q.next
    ensures u in q.tasks && q.tasks[u] == q'.tasks[u]
  {
  }

  lemma CloseLaunchesFew(q: State, q': State, t: TaskId, c: Choice, next: Option<ShutStep>)
    requires t in q.tasks && q.tasks[t].Shut? && ShutTurn(q, q', t, q.tasks[t], c, next) && KeepsNames(q, q'.names)
    ensures LaunchesFew(q, q')
  {
    hide CodesKept, NoneReady, ShutLeads, ShutActs;
    forall id | id in q.names && MayLaunch(q', id) ensures MayLaunch(q, id) {
      if u :| u in q'.tasks && q'.tasks[u].OpenInsert? && q'.tasks[u].id == id {
        assert u in q.tasks && q.tasks[u] == q'.tasks[u];
      }
    }
  }

  lemma AcquireLaunchesFew(q: State, q': State, t: TaskId)
    requires t in q.tasks && q.tasks[t].OpenInsert? && q'.tasks == q.tasks - {t} && q'.launched == q.launched
    requires q'.opens.Keys == q.opens.Keys + {q.tasks[t].id}
    requires forall x :: x in q.opens && x != q.tasks[t].id ==> q'.opens[x] == q.opens[x]
    requires KeepsNames(q, q'.names)
    ensures LaunchesFew(q, q')
  {
  }

  lemma OpenLaunchesFew(q: State, q': State, id: SessionId, c: Choice)
    requires id in q.opens && id in q.names && OpenEffects(q, q', id, c) && KeepsNames(q, q'.names)
    requires forall t :: t in q.tasks && q.tasks[t].OpenInsert? ==> q.tasks[t].id != id
    ensures LaunchesFew(q, q')
  {
    hide OpenCodes;
  }

  lemma OpenStands(q: State, id: SessionId)
    requires Inv(q) && id in q.opens
    ensures id in q.names && forall t :: t in q.tasks && q.tasks[t].OpenInsert? ==> q.tasks[t].id != id
  {
    hide Shared;
    forall t | t in q.tasks && q.tasks[t].OpenInsert? ensures q.tasks[t].id != id { assert TaskOk(q, t, q.tasks[t]); }
  }

  /** The world's events and requests. */
  lemma WorldLaunchesFew(q: State, q': State, task: Option<Task>)
    requires q'.opens == q.opens && q'.launched == q.launched && KeepsNames(q, q'.names)
    requires q'.tasks == if task.Some? then q.tasks[q.next := task.value] else q.tasks
    requires task.Some? ==> !task.value.OpenInsert?
    ensures LaunchesFew(q, q')
  {
  }

  // ---- each part stays clear ---------------------------------------------------

  lemma LogStaysClear(q: State, q': State, acts: seq<Act>)
    requires LogClear(q) && LaunchesFew(q, q') && q'.log == q.log + acts
    requires forall act :: act in acts && act.PreRemote? ==> Unlaunched(q, act.id)
    ensures LogClear(q')
  {
    hide LaunchesFew, Unlaunched;
    forall act | act in q'.log && act.PreRemote? ensures Unlaunched(q', act.id) { StaysUnlaunched(q, q', act.id); }
  }

  lemma RowsStayClear(q: State, q': State)
    requires RowsClear(q) && LaunchesFew(q, q') && CodesKept(q.rows, q'.rows)
    ensures RowsClear(q')
  {
    hide LaunchesFew, Unlaunched;
    forall id | id in q'.rows && PreRemoteCode(q'.rows[id]) ensures Unlaunched(q', id) { StaysUnlaunched(q, q', id); }
  }

  lemma OpensStayClear(q: State, q': State)
    requires OpensClear(q) && q'.opens == q.opens && q'.launched == q.launched
    ensures OpensClear(q')
  {
  }

  /** A snapshot is an older one of the same task, or of a row as it is. */
  lemma SnapshotStaysClear(q: State, q': State, task: Task)
    requires LaunchesFew(q, q') && RowsClear(q)
    requires Snapshot(task).Some? && PreRemoteCode(Snapshot(task).value.row)
    requires var Found(id, row) := Snapshot(task).value; Unlaunched(q, id) || (id in q.rows && q.rows[id] == row)
    ensures Unlaunched(q', Snapshot(task).value.id)
  {
    hide LaunchesFew, Unlaunched, Snapshot;
    StaysUnlaunched(q, q', Snapshot(task).value.id);
  }

  lemma EffectKeepsTasksClear(q: State, q': State, t: TaskId, acts: seq<Act>)
    requires TasksClear(q) && RowsClear(q) && LaunchesFew(q, q') && Effect(q, q', t, acts)
    requires t in q.tasks && !q.tasks[t].Shut?
    ensures TasksClear(q')
  {
    hide LaunchesFew, Unlaunched, CodesKept, NoneReady, PreRemoteCode;
    forall u | u in q'.tasks && Snapshot(q'.tasks[u]).Some? && PreRemoteCode(Snapshot(q'.tasks[u]).value.row)
      ensures Unlaunched(q', Snapshot(q'.tasks[u]).value.id)
    {
      SnapshotStaysClear(q, q', q'.tasks[u]);
    }
  }

  lemma CloseKeepsTasksClear(q: State, q': State, t: TaskId, c: Choice, next: Option<ShutStep>)
    requires TasksClear(q) && RowsClear(q) && LaunchesFew(q, q')
    requires t in q.tasks && q.tasks[t].Shut? && ShutTurn(q, q', t, q.tasks[t], c, next)
    ensures TasksClear(q')
  {
    hide LaunchesFew, Unlaunched, CodesKept, NoneReady, PreRemoteCode;
    forall u | u in q'.tasks && Snapshot(q'.tasks[u]).Some? && PreRemoteCode(Snapshot(q'.tasks[u]).value.row)
      ensures Unlaunched(q', Snapshot(q'.tasks[u]).value.id)
    {
      SnapshotStaysClear(q, q', q'.tasks[u]);
    }
  }

  lemma SameKeepsTasksClear(q: State, q': State)
    requires TasksClear(q) && LaunchesFew(q, q')
    requires forall u :: u in q'.tasks ==> Snapshot(q'.tasks[u]).None? || (u in q.tasks && q'.tasks[u] == q.tasks[u])
    ensures TasksClear(q')
  {
    hide LaunchesFew, Unlaunched, PreRemoteCode, Snapshot;
    forall u | u in q'.tasks && Snapshot(q'.tasks[u]).Some? && PreRemoteCode(Snapshot(q'.tasks[u]).value.row)
      ensures Unlaunched(q', Snapshot(q'.tasks[u]).value.id)
    {
      StaysUnlaunched(q, q', Snapshot(q'.tasks[u]).value.id);
    }
  }

  // ---- one step -------------------------------------------------------------

  lemma NamesOf(q: State)
    requires Inv(q)
    ensures NamesFresh(q.names, q.next) && TasksFresh(q.tasks, q.next)
  {
    hide RowsOk, LogJustified, OpenOk, TaskOk, NamesFresh, TasksFresh, StartsAwaited;
  }

  lemma EffectKeepsClear(q: State, q': State, t: TaskId, task: Task, c: Choice)
    requires Inv(q) && Clear(q) && KeepsNames(q, q'.names)
    requires t in q.tasks && q.tasks[t] == task && !task.Shut? && Effect(q, q', t, TaskActs(q, task, c))
    ensures Clear(q')
  {
    hide Inv, KeepsNames, LaunchesFew, RowsClear, TasksClear, OpensClear, LogClear, OnceOnly, CodesKept, NoneReady;
    hide TasksFollow, TaskActs;
    NamesOf(q);
    EffectLaunchesFew(q, q', t, TaskActs(q, task, c));
    StaysOnceOnly(q, q');
    RowsStayClear(q, q');
    EffectKeepsTasksClear(q, q', t, TaskActs(q, task, c));
    OpensStayClear(q, q');
    OtherActs(q, task, c);
    LogStaysClear(q, q', TaskActs(q, task, c));
  }

  lemma OtherActs(q: State, task: Task, c: Choice)
    requires !task.Shut?
    ensures forall act :: act in TaskActs(q, task, c) ==> !act.PreRemote?
  {
  }

  lemma CloseKeepsClear(q: State, q': State, t: TaskId, task: Task, c: Choice, next: Option<ShutStep>)
    requires Inv(q) && Clear(q) && KeepsNames(q, q'.names)
    requires t in q.tasks && q.tasks[t] == task && task.Shut? && ShutTurn(q, q', t, task, c, next)
    ensures Clear(q')
  {
    hide Inv, KeepsNames, LaunchesFew, RowsClear, TasksClear, OpensClear, LogClear, OnceOnly, CodesKept, NoneReady;
    hide ShutTasks, ShutLeads;
    hide ShutActs, Unlaunched;
    CloseLaunchesFew(q, q', t, c, next);
    StaysOnceOnly(q, q');
    RowsStayClear(q, q');
    CloseKeepsTasksClear(q, q', t, c, next);
    OpensStayClear(q, q');
    var acts := if c.cancelled then [] else ShutActs(task.caller, task.id, task.op, task.at, c);
    forall act | act in acts && act.PreRemote? ensures Unlaunched(q, act.id) { PreRemoteActs(q, t, task, c, act); }
    LogStaysClear(q, q', acts);
  }

  lemma PreRemoteActs(q: State, t: TaskId, task: Task, c: Choice, act: Act)
    requires TasksClear(q) && t in q.tasks && q.tasks[t] == task && task.Shut?
    requires act in ShutActs(task.caller, task.id, task.op, task.at, c) && act.PreRemote?
    ensures Unlaunched(q, act.id)
  {
    hide Unlaunched;
  }

  lemma OpenKeepsClear(q: State, q': State, id: SessionId, c: Choice)
    requires Inv(q) && Clear(q) && KeepsNames(q, q'.names) && id in q.opens && OpenEffects(q, q', id, c)
    ensures Clear(q')
  {
    hide Inv, KeepsNames, LaunchesFew, RowsClear, TasksClear, OpensClear, LogClear, OpenCodes, Unlaunched, Snapshot;
    hide OnceOnly, OpenGoesOn;
    OpenStands(q, id);
    OpenLaunchesFew(q, q', id, c);
    StaysOnceOnly(q, q');
    SameKeepsTasksClear(q, q');
    LogStaysClear(q, q', []);
    OpenKeepsOpensClear(q, q', id, c);
    OpenKeepsRowsClear(q, q', id, c);
  }

  lemma OpenKeepsOpensClear(q: State, q': State, id: SessionId, c: Choice)
    requires OpensClear(q) && OnceOnly(q) && id in q.opens && OpenEffects(q, q', id, c)
    ensures OpensClear(q')
  {
    hide OpenCodes, IsPreRemoteFailure;
  }

  lemma OpenKeepsRowsClear(q: State, q': State, id: SessionId, c: Choice)
    requires RowsClear(q) && OpensClear(q) && LaunchesFew(q, q') && id in q.opens && OpenEffects(q, q', id, c)
    requires id in q.names && forall t :: t in q.tasks && q.tasks[t].OpenInsert? ==> q.tasks[t].id != id
    ensures RowsClear(q')
  {
    hide LaunchesFew, OpenGoesOn;
    forall x | x in q'.rows && PreRemoteCode(q'.rows[x]) ensures Unlaunched(q', x) {
      assert Unlaunched(q, x);
      StaysUnlaunched(q, q', x);
    }
  }

  lemma AcquireKeepsClear(q: State, q': State, t: TaskId)
    requires Clear(q) && KeepsNames(q, q'.names)
    requires t in q.tasks && q.tasks[t].OpenInsert? && q'.tasks == q.tasks - {t} && q'.launched == q.launched
    requires q'.opens.Keys == q.opens.Keys + {q.tasks[t].id} && q'.log == q.log && q'.rows == q.rows
    requires forall x :: x in q.opens && x != q.tasks[t].id ==> q'.opens[x] == q.opens[x]
    requires q'.opens[q.tasks[t].id].code == InternalError
    ensures Clear(q')
  {
    hide LaunchesFew, RowsClear, TasksClear, LogClear, OnceOnly, Snapshot, KeepsNames;
    AcquireLaunchesFew(q, q', t);
    StaysOnceOnly(q, q');
    SameKeepsTasksClear(q, q');
    LogStaysClear(q, q', []);
    SameRowsClear(q, q');
  }

  lemma SameRowsClear(q: State, q': State)
    requires RowsClear(q) && LaunchesFew(q, q') && q'.rows == q.rows
    ensures RowsClear(q')
  {
    hide LaunchesFew;
    RowsStayClear(q, q');
  }

  lemma WorldKeepsClear(q: State, q': State, task: Option<Task>)
    requires Clear(q) && KeepsNames(q, q'.names)
    requires q'.opens == q.opens && q'.launched == q.launched && q'.log == q.log && q'.rows == q.rows
    requires q'.tasks == if task.Some? then q.tasks[q.next := task.value] else q.tasks
    requires task.Some? ==> !task.value.OpenInsert? && Snapshot(task.value).None?
    ensures Clear(q')
  {
    hide LaunchesFew, RowsClear, TasksClear, LogClear, OnceOnly, OpensClear, Snapshot, KeepsNames;
    WorldLaunchesFew(q, q', task);
    StaysOnceOnly(q, q');
    SameKeepsTasksClear(q, q');
    LogStaysClear(q, q', []);
    SameRowsClear(q, q');
    OpensStayClear(q, q');
  }

  lemma TurnKeepsClear(q: State, t: TaskId, c: Choice)
    requires Inv(q) && Clear(q) && t in q.tasks && KeepsNames(q, StepTask(q, t, c).names)
    ensures Clear(StepTask(q, t, c))
  {
    hide Inv, Clear, KeepsNames, StepTask, Effect, ShutTurn, Full, TaskActs, Completes;
    var task, q' := q.tasks[t], StepTask(q, t, c);
    TasksOf(q, t);
    if task.Shut? {
      ShutTurnHolds(q, t, task.alias, task.caller, task.id, task.op, task.at, c);
      ShutSteps(q, t, c);
      CloseKeepsClear(q, q', t, task, c, NextStep(q', t, task));
    } else if task.OpenInsert? && !c.cancelled && !Full(q) {
      AcquireTurn(q, t, task.alias, task.id, c);
      AcquireKeepsClear(q, q', t);
    } else if Completes(task, c) {
      CompleteTurn(q, t, task, c);
      CompleteKeepsClear(q, q', t, task, c);
    } else {
      TurnHasEffect(q, t, c);
      EffectKeepsClear(q, q', t, task, c);
    }
  }

  lemma CompleteKeepsClear(q: State, q': State, t: TaskId, task: Task, c: Choice)
    requires Inv(q) && Clear(q) && t in q.tasks && q.tasks[t] == task && Completes(task, c)
    requires Effect(q, q'.(rows := q.rows), t, TaskActs(q, task, c)) && CodesKept(q.rows, q'.rows)
    requires KeepsNames(q, q'.names)
    ensures Clear(q')
  {
    hide Inv, Effect, KeepsNames, Completes, TaskActs, CodesKept, RowsClear, TasksClear, OpensClear, LogClear, OnceOnly;
    CompletesAlone(q, task, c);
    EffectKeepsClear(q, q'.(rows := q.rows), t, task, c);
    RowsAloneClear(q, q'.(rows := q.rows), q');
  }

  lemma RowsAloneClear(q: State, q1: State, q': State)
    requires RowsClear(q1) && TasksClear(q1) && OpensClear(q1) && LogClear(q1) && OnceOnly(q1)
    requires q' == q1.(rows := q'.rows) && q1.rows == q.rows && CodesKept(q.rows, q'.rows)
    ensures Clear(q')
  {
    assert forall id :: Unlaunched(q1, id) ==> Unlaunched(q', id);
    assert forall id :: MayLaunch(q', id) ==> MayLaunch(q1, id);
  }

  lemma TablesStay(q: State, id: SessionId)
    ensures var q' := StepConnected(q, id); q'.opens == q.opens && q'.launched == q.launched && q'.rows == q.rows
    ensures var q' := StepDisconnected(q, id); q'.opens == q.opens && q'.launched == q.launched && q'.rows == q.rows
  {
    if q.recoverer.None? && id in q.owned {
      var count := if id in q.counts then q.counts[id] else 0;
      var left := if count > 0 then count - 1 else 0;
      var counts := if count > 0 then q.counts[id := left] else q.counts;
      assert StepDisconnected(q, id) == q.(counts := counts, timers := if left == 0 then q.timers + {id} else q.timers);
      assert StepConnected(q, id) == q.(timers := q.timers - {id}, counts := q.counts[id := count + 1]);
    }
  }

  lemma EventKeepsClear(q: State, e: Event)
    requires Inv(q) && Clear(q) && !e.Turn? && !e.Restart? && KeepsNames(q, Apply(q, e).names)
    ensures Clear(Apply(q, e))
  {
    hide Inv, Clear, KeepsNames, StepOpen, StepConnected, StepDisconnected, OpenEffects;
    var q' := Apply(q, e);
    if q' == q {
    } else if e.OpenTurn? {
      OpenHasEffects(q, e.id, e.answers);
      OpenKeepsClear(q, q', e.id, e.answers);
    } else if e.CallOpen? {
      WorldKeepsClear(q, q', Some(OpenLock(e.alias)));
    } else if e.CallClose? {
      WorldKeepsClear(q, q', Some(CloseLock(e.alias, e.force)));
    } else if e.CallRetry? {
      WorldKeepsClear(q, q', Some(RetryLock(e.alias)));
    } else if e.TunnelDown? {
      var id := q.watched[e.tunnel];
      WorldKeepsClear(q, q', Some(ExitRead(q.names[id], id, e.tunnel, id in q.rows)));
    } else {
      ConnectedOnly(q, e.id);
      DisconnectedOnly(q, e.id);
      TablesStay(q, e.id);
      WorldKeepsClear(q, q', None);
    }
  }

  lemma RestartKeepsClear(q: State, order: seq<Found>)
    requires Clear(q)
    ensures Clear(Apply(q, Restart(order)))
  {
    hide Lists, PreRemoteCode;
    var q' := Apply(q, Restart(order));
    if q' != q {
      forall id | Unlaunched(q, id) ensures Unlaunched(q', id) {}
    }
  }

  lemma StepKeepsClear(q: State, e: Event)
    requires Inv(q) && Clear(q)
    ensures Clear(Apply(q, e))
  {
    hide Inv, Clear, StepTask, KeepsNames;
    if e.Restart? {
      hide Apply;
      RestartKeepsClear(q, e.order);
    } else {
      StepKeepsNames(q, e);
      if e.Turn? {
        if e.task in q.tasks { TurnKeepsClear(q, e.task, e.answers); }
      } else {
        hide Apply;
        EventKeepsClear(q, e);
      }
    }
  }

  lemma InitialClear(s: State)
    requires Initial(s)
    ensures Clear(s)
  {
    hide Lists, PreRemoteCode;
  }

  lemma {:induction false} RunClear(s: State, events: seq<Event>)
    requires Initial(s)
    ensures Clear(Run(s, events))
    decreases |events|
  {
    hide Inv, Clear, Apply, Initial;
    if events == [] {
      InitialClear(s);
    } else {
      var before := events[..|events| - 1];
      RunClear(s, before);
      RunInv(s, before);
      StepKeepsClear(Run(s, before), events[|events| - 1]);
    }
  }

  // ---- what follows for every run ----------------------------------------------

  ghost predicate LaunchedIn(s: State, events: seq<Event>, id: SessionId) {
    exists i :: 0 <= i < |events| && Launches(Run(s, events[..i]), events[i], id)
  }

  lemma LaunchedLonger(s: State, events: seq<Event>, e: Event, id: SessionId)
    ensures LaunchedIn(s, events + [e], id) <==> LaunchedIn(s, events, id) || Launches(Run(s, events), e, id)
  {
    hide Run, Launches;
    var all := events + [e];
    assert all[..|events|] == events && all[|events|] == e;
    assert forall i :: 0 <= i < |events| ==> all[..i] == events[..i] && all[i] == events[i];
  }

  lemma LaunchesStep(q: State, e: Event, id: SessionId)
    requires Inv(q)
    ensures id in Apply(q, e).launched <==> id in q.launched || Launches(q, e, id)
  {
    hide Inv, StepTask, StepOpen, StepConnected, StepDisconnected, Lists, TaskActs, OpenGoesOn, OpenCodes;
    if e.Turn? {
      if e.task in q.tasks { TurnLaunchesNothing(q, e.task, e.answers); }
    } else if e.OpenTurn? {
      if e.id in q.opens { OpenHasEffects(q, e.id, e.answers); }
    } else if e.Connected? || e.Disconnected? {
      TablesStay(q, e.id);
    }
  }

  lemma TurnLaunchesNothing(q: State, t: TaskId, c: Choice)
    requires Inv(q) && t in q.tasks
    ensures StepTask(q, t, c).launched == q.launched
  {
    hide Inv, StepTask, Full, TaskActs, Completes, CodesKept, NoneReady, TasksFollow, ShutLeads, ShutTasks, NextStep;
    hide ShutActs;
    var task := q.tasks[t];
    TasksOf(q, t);
    if task.Shut? {
      ShutTurnHolds(q, t, task.alias, task.caller, task.id, task.op, task.at, c);
      ShutSteps(q, t, c);
    } else if task.OpenInsert? && !c.cancelled && !Full(q) {
      AcquireTurn(q, t, task.alias, task.id, c);
    } else if Completes(task, c) {
      CompleteTurn(q, t, task, c);
    } else {
      TurnHasEffect(q, t, c);
    }
  }

  lemma {:induction false} LaunchedExactly(s: State, events: seq<Event>, id: SessionId)
    requires Initial(s)
    ensures id in Run(s, events).launched <==> LaunchedIn(s, events, id)
    decreases |events|
  {
    hide Inv, Apply, Launches;
    if events == [] {
    } else {
      var before, e := events[..|events| - 1], events[|events| - 1];
      assert events == before + [e];
      RunPrefix(s, before, e);
      LaunchedExactly(s, before, id);
      RunInv(s, before);
      LaunchesStep(Run(s, before), e, id);
      LaunchedLonger(s, before, e, id);
    }
  }

  /** In every run, restarts included: where a close took the session for gone by the pre-remote-failure rule,
      no open ever asked the helper to start it, before or after. */
  lemma PreRemoteWasNeverStarted(s: State, events: seq<Event>, op: nat, id: SessionId)
    requires Initial(s) && PreRemote(op, id) in Run(s, events).log
    ensures forall i :: 0 <= i < |events| ==> !Launches(Run(s, events[..i]), events[i], id)
  {
    hide Run, Initial, Launches, RowsClear, TasksClear, OpensClear, OnceOnly;
    RunClear(s, events);
    LaunchedExactly(s, events, id);
  }

  /** A start is asked for at most once for each session. */
  lemma StartedAtMostOnce(s: State, events: seq<Event>, i: nat, j: nat, id: SessionId)
    requires Initial(s) && i < j < |events|
    requires Launches(Run(s, events[..i]), events[i], id)
    ensures !Launches(Run(s, events[..j]), events[j], id)
  {
    hide Run, Initial, RowsClear, TasksClear, OpensClear, LogClear;
    var before := events[..j];
    assert before[..i] == events[..i] && before[i] == events[i];
    LaunchedExactly(s, before, id);
    RunClear(s, before);
    assert LaunchedIn(s, before, id);
  }
}
