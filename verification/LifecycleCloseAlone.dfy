/** Closing requests that run alone, from the request to the end of _do_close. */
module LifecycleCloseAlone {
  import opened Wrappers
  import opened Records
  import opened Database
  import opened Lifecycle
  import opened LifecycleInvariant
  import opened LifecycleEffects
  import opened LifecycleTurns

  // ---- _do_close -----------------------------------------------------------

  /** A close on its way. */
  ghost function Way(
    q: State, t: TaskId, task: Task, rows: Table, tunnels: map<SessionId, nat>, log: seq<Act>, next: nat): State
  {
    q.(tasks := q.tasks[t := task], rows := rows, tunnels := tunnels, log := log, next := next)
  }

  lemma ShutApplies(q: State, t: TaskId, alias: Alias, caller: ShutFor, id: SessionId, op: nat, at: ShutStep, c: Choice)
    requires Works(q, t, Shut(alias, caller, id, op, at))
    ensures Apply(q, Turn(t, c)) == StepShut(q, t, alias, caller, id, op, at, c)
  {
    hide StepShut;
  }

  lemma TakesTurn(q: State, t: TaskId, alias: Alias, caller: ShutFor, id: SessionId, op: nat, row: Row, c: Choice)
    requires !c.cancelled
    ensures StepShut(q, t, alias, caller, id, op, ShutRead(Some(row)), c)
         == Way(q, t, Shut(alias, caller, id, op, ShutRemote(row, id in q.tunnels)), q.rows, q.tunnels - {id}, q.log,
                q.next)
  {
  }

  ghost function RemoteFails(row: Row, c: Choice): bool {
    !CanCloseWithoutInspection(row) && !(Absence(row, c) && c.removed)
  }

  ghost function AsksActs(row: Row, id: SessionId, op: nat, c: Choice): seq<Act> {
    if CanCloseWithoutInspection(row) then [PreRemote(op, id)]
    else if Absence(row, c) then [Confirmed(op, id), Removing(op, id)]
    else []
  }

  lemma AsksTurn(
    q: State, t: TaskId, alias: Alias, caller: ShutFor, id: SessionId, op: nat, row: Row, tunnel: bool, c: Choice)
    requires !c.cancelled
    ensures StepShut(q, t, alias, caller, id, op, ShutRemote(row, tunnel), c)
         == Way(q, t, Shut(alias, caller, id, op, ShutClosing(Absence(row, c), RemoteFails(row, c), tunnel)), q.rows,
                q.tunnels, q.log + AsksActs(row, id, op, c), q.next)
  {
    hide CanCloseWithoutInspection;
  }

  ghost function Untunnelled(rows: Table, id: SessionId, tunnel: bool, c: Choice): Table {
    if tunnel && c.drained then ClearTunnelIdentity(rows, id) else rows
  }

  lemma ClosesTurn(
    q: State, t: TaskId, alias: Alias, caller: ShutFor, id: SessionId, op: nat, absent: bool, failed: bool,
    tunnel: bool, c: Choice)
    requires !c.cancelled
    ensures StepShut(q, t, alias, caller, id, op, ShutClosing(absent, failed, tunnel), c)
         == Way(q, t,
                Shut(alias, caller, id, op,
                     ShutClosed(absent, failed || !c.closed || (tunnel && !c.drained), !c.closed)),
                Untunnelled(q.rows, id, tunnel, c), q.tunnels, q.log, q.next)
  {
    hide ClearTunnelIdentity;
  }

  ghost function Forgotten(rows: Table, id: SessionId, absent: bool): Table {
    if absent then ClearRemoteIdentity(rows, id) else rows
  }

  lemma ClearsTurn(
    q: State, t: TaskId, alias: Alias, caller: ShutFor, id: SessionId, op: nat, absent: bool, failed: bool,
    retain: bool, c: Choice)
    requires !c.cancelled
    ensures
      var keeps := retain && !caller.Forced?;
      StepShut(q, t, alias, caller, id, op, ShutClosed(absent, failed, retain), c)
        == Way(q, t, Shut(alias, caller, id, op, ShutCleared(absent, failed)), Forgotten(q.rows, id, absent),
               if keeps then q.tunnels[id := q.next] else q.tunnels, q.log, if keeps then q.next + 1 else q.next)
  {
    hide ClearRemoteIdentity;
  }

  lemma ConcludesTurn(
    q: State, t: TaskId, alias: Alias, caller: ShutFor, id: SessionId, op: nat, absent: bool, failed: bool, c: Choice)
    requires !c.cancelled
    ensures
      var deletes := caller.Forced? || (absent && !failed);
      StepShut(q, t, alias, caller, id, op, ShutCleared(absent, failed), c)
        == Way(q, t, Shut(alias, caller, id, op, if deletes then ShutDelete else ShutMark),
               if deletes then Delete(q.rows, id) else MarkError(q.rows, id, StopFailed), q.tunnels,
               if deletes then q.log + [Deleted(op, id, caller.Forced?)] else q.log, q.next)
  {
    hide MarkError, Delete;
  }

  lemma EndsTurn(
    q: State, t: TaskId, alias: Alias, caller: ShutFor, id: SessionId, op: nat, deleted: bool, c: Choice)
    requires !c.cancelled
    ensures StepShut(q, t, alias, caller, id, op, if deleted then ShutDelete else ShutMark, c)
         == AfterShut(if deleted then Forget(q, id) else q, t, alias, caller, id)
  {
    hide AfterShut, Forget;
  }

  // ---- from start to end -----------------------------------------------------

  lemma WayTwice(
    q: State, t: TaskId, task: Task, rows: Table, tunnels: map<SessionId, nat>, log: seq<Act>, next: nat, task': Task,
    rows': Table, tunnels': map<SessionId, nat>, log': seq<Act>, next': nat)
    ensures
      Way(Way(q, t, task, rows, tunnels, log, next), t, task', rows', tunnels', log', next')
        == Way(q, t, task', rows', tunnels', log', next')
    ensures var s := Way(q, t, task, rows, tunnels, log, next);
      Works(s, t, task) && s.rows == rows && s.tunnels == tunnels && s.log == log && s.next == next
  {
    assert q.tasks[t := task][t := task'] == q.tasks[t := task'];
  }

  /** What a close is told, in the end. */
  datatype Told = Told(absent: bool, clean: bool, deletes: bool, keeps: bool)

  ghost function ToldBy(row: Row, tunnel: bool, forced: bool, c1: Choice, c2: Choice): Told {
    var clean := Absence(row, c1) && !RemoteFails(row, c1) && c2.closed && (tunnel ==> c2.drained);
    Told(Absence(row, c1), clean, forced || clean, !c2.closed && !forced)
  }

  /** The state of a close just before its last turn. */
  ghost function Concluded(
    q: State, t: TaskId, alias: Alias, caller: ShutFor, id: SessionId, op: nat, row: Row, c1: Choice, c2: Choice): State
  {
    var tunnel := id in q.tunnels;
    var told := ToldBy(row, tunnel, caller.Forced?, c1, c2);
    var rows := Forgotten(Untunnelled(q.rows, id, tunnel, c2), id, told.absent);
    var log := q.log + AsksActs(row, id, op, c1);
    Way(q, t, Shut(alias, caller, id, op, if told.deletes then ShutDelete else ShutMark),
        if told.deletes then Delete(rows, id) else MarkError(rows, id, StopFailed),
        if told.keeps then (q.tunnels - {id})[id := q.next] else q.tunnels - {id},
        if told.deletes then log + [Deleted(op, id, caller.Forced?)] else log,
        if told.keeps then q.next + 1 else q.next)
  }

  lemma FirstHalf(
    q: State, t: TaskId, alias: Alias, caller: ShutFor, id: SessionId, op: nat, row: Row, c0: Choice, c1: Choice,
    c2: Choice, rest: seq<Choice>)
    requires Works(q, t, Shut(alias, caller, id, op, ShutRead(Some(row))))
    requires !c0.cancelled && !c1.cancelled && !c2.cancelled
    ensures
      var tunnel := id in q.tunnels;
      var failed := RemoteFails(row, c1) || !c2.closed || (tunnel && !c2.drained);
      Turns(q, t, [c0] + ([c1] + ([c2] + rest)))
        == Turns(Way(q, t, Shut(alias, caller, id, op, ShutClosed(Absence(row, c1), failed, !c2.closed)),
                     Untunnelled(q.rows, id, tunnel, c2), q.tunnels - {id}, q.log + AsksActs(row, id, op, c1), q.next),
                 t, rest)
  {
    hide Turns, Apply, StepShut, Way, Absence, RemoteFails, AsksActs, Untunnelled;
    var tunnel, tunnels := id in q.tunnels, q.tunnels - {id};
    var task1 := Shut(alias, caller, id, op, ShutRemote(row, tunnel));
    FirstTurn(q, t, c0, [c1] + ([c2] + rest));
    ShutApplies(q, t, alias, caller, id, op, ShutRead(Some(row)), c0);
    TakesTurn(q, t, alias, caller, id, op, row, c0);
    var q1 := Way(q, t, task1, q.rows, tunnels, q.log, q.next);
    var task2 := Shut(alias, caller, id, op, ShutClosing(Absence(row, c1), RemoteFails(row, c1), tunnel));
    var log := q.log + AsksActs(row, id, op, c1);
    WayTwice(q, t, task1, q.rows, tunnels, q.log, q.next, task2, q.rows, tunnels, log, q.next);
    FirstTurn(q1, t, c1, [c2] + rest);
    ShutApplies(q1, t, alias, caller, id, op, ShutRemote(row, tunnel), c1);
    AsksTurn(q1, t, alias, caller, id, op, row, tunnel, c1);
    var q2 := Way(q, t, task2, q.rows, tunnels, log, q.next);
    var failed := RemoteFails(row, c1) || !c2.closed || (tunnel && !c2.drained);
    var task3 := Shut(alias, caller, id, op, ShutClosed(Absence(row, c1), failed, !c2.closed));
    WayTwice(q, t, task2, q.rows, tunnels, log, q.next, task3, Untunnelled(q.rows, id, tunnel, c2), tunnels, log,
             q.next);
    FirstTurn(q2, t, c2, rest);
    ShutApplies(q2, t, alias, caller, id, op, task2.at, c2);
    ClosesTurn(q2, t, alias, caller, id, op, Absence(row, c1), RemoteFails(row, c1), tunnel, c2);
  }

  lemma SecondHalf(
    q: State, t: TaskId, alias: Alias, caller: ShutFor, id: SessionId, op: nat, absent: bool, failed: bool,
    retain: bool, rows: Table, tunnels: map<SessionId, nat>, log: seq<Act>, c3: Choice, c4: Choice, rest: seq<Choice>)
    requires !c3.cancelled && !c4.cancelled
    ensures
      var deletes, keeps := caller.Forced? || (absent && !failed), retain && !caller.Forced?;
      var rows' := Forgotten(rows, id, absent);
      Turns(Way(q, t, Shut(alias, caller, id, op, ShutClosed(absent, failed, retain)), rows, tunnels, log, q.next), t,
            [c3] + ([c4] + rest))
        == Turns(Way(q, t, Shut(alias, caller, id, op, if deletes then ShutDelete else ShutMark),
                     if deletes then Delete(rows', id) else MarkError(rows', id, StopFailed),
                     if keeps then tunnels[id := q.next] else tunnels,
                     if deletes then log + [Deleted(op, id, caller.Forced?)] else log,
                     if keeps then q.next + 1 else q.next), t, rest)
  {
    hide Turns, Apply, StepShut, Way, Forgotten, Delete, MarkError;
    var task3 := Shut(alias, caller, id, op, ShutClosed(absent, failed, retain));
    var task4 := Shut(alias, caller, id, op, ShutCleared(absent, failed));
    var deletes, keeps := caller.Forced? || (absent && !failed), retain && !caller.Forced?;
    var task5 := Shut(alias, caller, id, op, if deletes then ShutDelete else ShutMark);
    var rows' := Forgotten(rows, id, absent);
    var tunnels' := if keeps then tunnels[id := q.next] else tunnels;
    var next' := if keeps then q.next + 1 else q.next;
    var q3 := Way(q, t, task3, rows, tunnels, log, q.next);
    WayTwice(q, t, task3, rows, tunnels, log, q.next, task4, rows', tunnels', log, next');
    FirstTurn(q3, t, c3, [c4] + rest);
    ShutApplies(q3, t, alias, caller, id, op, task3.at, c3);
    ClearsTurn(q3, t, alias, caller, id, op, absent, failed, retain, c3);
    var q4 := Way(q, t, task4, rows', tunnels', log, next');
    var rows5 := if deletes then Delete(rows', id) else MarkError(rows', id, StopFailed);
    var log5 := if deletes then log + [Deleted(op, id, caller.Forced?)] else log;
    WayTwice(q, t, task4, rows', tunnels', log, next', task5, rows5, tunnels', log5, next');
    FirstTurn(q4, t, c4, rest);
    ShutApplies(q4, t, alias, caller, id, op, task4.at, c4);
    ConcludesTurn(q4, t, alias, caller, id, op, absent, failed, c4);
  }

  /** _do_close from its first await to its last, with nothing else taking a turn. */
  lemma ShutAlone(
    q: State, t: TaskId, alias: Alias, caller: ShutFor, id: SessionId, op: nat, row: Row, c: seq<Choice>)
    requires Works(q, t, Shut(alias, caller, id, op, ShutRead(Some(row)))) && |c| == 6 && Calm(c)
    ensures
      var s := Concluded(q, t, alias, caller, id, op, row, c[1], c[2]);
      var told := ToldBy(row, id in q.tunnels, caller.Forced?, c[1], c[2]);
      Turns(q, t, c) == AfterShut(if told.deletes then Forget(s, id) else s, t, alias, caller, id)
  {
    hide Turns, Apply, StepShut, Way, Absence, RemoteFails, AsksActs, Untunnelled, Forgotten, Delete, MarkError;
    hide AfterShut, Forget;
    var tunnel, tunnels := id in q.tunnels, q.tunnels - {id};
    SixAnswers(c, []);
    assert c + [] == c;
    var last := [c[5]] + [];
    FirstHalf(q, t, alias, caller, id, op, row, c[0], c[1], c[2], [c[3]] + ([c[4]] + last));
    var failed := RemoteFails(row, c[1]) || !c[2].closed || (tunnel && !c[2].drained);
    SecondHalf(q, t, alias, caller, id, op, Absence(row, c[1]), failed, !c[2].closed,
               Untunnelled(q.rows, id, tunnel, c[2]), tunnels, q.log + AsksActs(row, id, op, c[1]), c[3], c[4], last);
    var s := Concluded(q, t, alias, caller, id, op, row, c[1], c[2]);
    var told := ToldBy(row, tunnel, caller.Forced?, c[1], c[2]);
    ConcludedIs(q, t, alias, caller, id, op, row, c[1], c[2]);
    hide Concluded, ToldBy;
    FirstTurn(s, t, c[5], []);
    ConcludedWorks(q, t, alias, caller, id, op, row, c[1], c[2]);
    ShutApplies(s, t, alias, caller, id, op, if told.deletes then ShutDelete else ShutMark, c[5]);
    EndsTurn(s, t, alias, caller, id, op, told.deletes, c[5]);
    NoMoreTurns(AfterShut(if told.deletes then Forget(s, id) else s, t, alias, caller, id), t);
  }

  lemma ConcludedIs(
    q: State, t: TaskId, alias: Alias, caller: ShutFor, id: SessionId, op: nat, row: Row, c1: Choice, c2: Choice)
    ensures
      var tunnel := id in q.tunnels;
      var absent, failed := Absence(row, c1), RemoteFails(row, c1) || !c2.closed || (tunnel && !c2.drained);
      var deletes, keeps := caller.Forced? || (absent && !failed), !c2.closed && !caller.Forced?;
      var rows := Forgotten(Untunnelled(q.rows, id, tunnel, c2), id, absent);
      var log := q.log + AsksActs(row, id, op, c1);
      && deletes == ToldBy(row, tunnel, caller.Forced?, c1, c2).deletes
      && Concluded(q, t, alias, caller, id, op, row, c1, c2)
           == Way(q, t, Shut(alias, caller, id, op, if deletes then ShutDelete else ShutMark),
                  if deletes then Delete(rows, id) else MarkError(rows, id, StopFailed),
                  if keeps then (q.tunnels - {id})[id := q.next] else q.tunnels - {id},
                  if deletes then log + [Deleted(op, id, caller.Forced?)] else log,
                  if keeps then q.next + 1 else q.next)
  {
    hide Absence, RemoteFails, AsksActs, Untunnelled, Forgotten, Delete, MarkError, Way;
  }

  lemma ConcludedWorks(
    q: State, t: TaskId, alias: Alias, caller: ShutFor, id: SessionId, op: nat, row: Row, c1: Choice, c2: Choice)
    ensures
      var told := ToldBy(row, id in q.tunnels, caller.Forced?, c1, c2);
      Works(Concluded(q, t, alias, caller, id, op, row, c1, c2), t,
            Shut(alias, caller, id, op, if told.deletes then ShutDelete else ShutMark))
  {
  }

  /** The row a close leaves that was told of an error. */
  ghost function FailedRow(row: Row, absent: bool, tunnel: bool, drained: bool): Row {
    row.(state := Error, errorCode := Some(StopFailed), identity := if absent then NO_IDENTITY else row.identity,
         localPort := if tunnel && drained then None else row.localPort)
  }

  lemma FailedRows(rows: Table, id: SessionId, row: Row, absent: bool, tunnel: bool, c: Choice)
    requires id in rows && rows[id] == row
    ensures var rows1 := Forgotten(Untunnelled(rows, id, tunnel, c), id, absent);
      && Delete(rows1, id) == rows - {id}
      && MarkError(rows1, id, StopFailed) == rows[id := FailedRow(row, absent, tunnel, c.drained)]
  {
  }

  /** What _do_close leaves behind when it runs alone. */
  ghost predicate ShutLeaves(
    q: State, q': State, t: TaskId, id: SessionId, row: Row, forced: bool, c1: Choice, c2: Choice)
  {
    var tunnel := id in q.tunnels;
    var told := ToldBy(row, tunnel, forced, c1, c2);
    && q'.rows == (if told.deletes then q.rows - {id}
                   else q.rows[id := FailedRow(row, told.absent, tunnel, c2.drained)])
    && q'.tunnels == (if told.keeps then (q.tunnels - {id})[id := q.next] else q.tunnels - {id})
    && q'.owned == (if told.deletes then q.owned - {id} else q.owned)
    && q'.registry == (if told.deletes then q.registry - {id} else q.registry)
    && q'.counts == (if told.deletes then q.counts - {id} else q.counts)
    && q'.timers == (if told.deletes then q.timers - {id} else q.timers)
    && q'.opens == q.opens && q'.starts == q.starts && q'.names == q.names && q'.unacquired == q.unacquired
    && q'.recoverer == q.recoverer && q'.backlog == q.backlog && q'.tasks - {t} == q.tasks - {t}
  }

  lemma ShutAloneLeaves(
    q: State, t: TaskId, alias: Alias, caller: ShutFor, id: SessionId, op: nat, row: Row, c: seq<Choice>)
    requires Works(q, t, Shut(alias, caller, id, op, ShutRead(Some(row)))) && |c| == 6 && Calm(c)
    requires id in q.rows && q.rows[id] == row
    ensures
      var q' := Turns(q, t, c);
      var deletes := ToldBy(row, id in q.tunnels, caller.Forced?, c[1], c[2]).deletes;
      && ShutLeaves(q, q', t, id, row, caller.Forced?, c[1], c[2])
      && (caller.Spawned? || caller.Forced? ==> q'.tasks == q.tasks - {t})
      && (caller.Retrying? ==> q'.tasks == q.tasks[t := RetryCheck(alias, deletes)])
      && (caller.Recovering? ==> q'.tasks == q.tasks[t := RecoverNext(caller.todo)])
      && q'.locks == (if caller.Forced? || caller.Recovering? then q.locks - {alias} else q.locks)
  {
    hide Turns, Concluded, AfterShut, Forget, ToldBy, FailedRow;
    ShutAlone(q, t, alias, caller, id, op, row, c);
    var s := Concluded(q, t, alias, caller, id, op, row, c[1], c[2]);
    ConcludedFields(q, t, alias, caller, id, op, row, c[1], c[2]);
    ForgetsFields(s, id);
    AfterShutFields(q, s, t, alias, caller, id);
    AfterShutFields(q, Forget(s, id), t, alias, caller, id);
  }

  lemma ConcludedFields(
    q: State, t: TaskId, alias: Alias, caller: ShutFor, id: SessionId, op: nat, row: Row, c1: Choice, c2: Choice)
    requires id in q.rows && q.rows[id] == row
    ensures
      var s, tunnel := Concluded(q, t, alias, caller, id, op, row, c1, c2), id in q.tunnels;
      var told := ToldBy(row, tunnel, caller.Forced?, c1, c2);
      && s == q.(tasks := s.tasks, rows := s.rows, tunnels := s.tunnels, log := s.log, next := s.next)
      && s.rows == (if told.deletes then q.rows - {id}
                    else q.rows[id := FailedRow(row, told.absent, tunnel, c2.drained)])
      && s.tunnels == (if told.keeps then (q.tunnels - {id})[id := q.next] else q.tunnels - {id})
      && t in s.tasks && s.tasks == q.tasks[t := s.tasks[t]]
  {
    hide Absence, RemoteFails, AsksActs, Untunnelled, Forgotten, Delete, MarkError, FailedRow;
    FailedRows(q.rows, id, row, Absence(row, c1), id in q.tunnels, c2);
  }

  lemma AfterShutFields(q: State, s: State, t: TaskId, alias: Alias, caller: ShutFor, id: SessionId)
    requires t in s.tasks && s.tasks == q.tasks[t := s.tasks[t]]
    ensures var s' := AfterShut(s, t, alias, caller, id);
      && s' == s.(tasks := s'.tasks, locks := s'.locks)
      && (caller.Spawned? || caller.Forced? ==> s'.tasks == q.tasks - {t})
      && (caller.Retrying? ==> s'.tasks == q.tasks[t := RetryCheck(alias, id !in s.rows)])
      && (caller.Recovering? ==> s'.tasks == q.tasks[t := RecoverNext(caller.todo)])
      && s'.locks == (if caller.Forced? || caller.Recovering? then s.locks - {alias} else s.locks)
      && s'.tasks - {t} == q.tasks - {t}
  {
    assert q.tasks[t := s.tasks[t]] - {t} == q.tasks - {t};
    if caller.Retrying? {
      var task := RetryCheck(alias, id !in s.rows);
      assert q.tasks[t := s.tasks[t]][t := task] == q.tasks[t := task] && q.tasks[t := task] - {t} == q.tasks - {t};
    } else if caller.Recovering? {
      var task := RecoverNext(caller.todo);
      assert q.tasks[t := s.tasks[t]][t := task] == q.tasks[t := task] && q.tasks[t := task] - {t} == q.tasks - {t};
    }
  }

  lemma ForgetsFields(q: State, id: SessionId)
    ensures var s := Forget(q, id);
      && s == q.(timers := q.timers - {id}, owned := q.owned - {id}, registry := q.registry - {id},
                 counts := q.counts - {id})
  {
  }

  // ---- the request ---------------------------------------------------------

  /** Nobody holds the alias's lock, no start task of the session is awaited, and requests are served. */
  ghost predicate Idle(q: State, alias: Alias) {
    q.recoverer.None? && alias !in q.locks && q.next !in q.tasks && q.next + 1 !in q.tasks
  }

  ghost function Stopped(row: Row, reason: CloseReason): Row {
    row.(state := Stopping, closeReason := Some(reason))
  }

  /** The request has recorded the reason and withdrawn the port; `t` or a spawned task runs _do_close. */
  ghost function Closing(q: State, alias: Alias, force: bool, id: SessionId, row: Row): State {
    var t := q.next;
    var s := q.(rows := q.rows[id := row], timers := q.timers - {id}, registry := q.registry - {id}, next := t + 2);
    if force then
      s.(tasks := q.tasks[t := Shut(alias, Forced, id, t + 1, ShutRead(Some(row)))], locks := q.locks[alias := t])
    else s.(tasks := q.tasks[t + 1 := Shut(alias, Spawned, id, t + 1, ShutStart)])
  }

  lemma AsksToClose(q: State, alias: Alias, force: bool)
    requires Idle(q, alias)
    ensures Apply(q, CallClose(alias, force))
         == q.(tasks := q.tasks[q.next := CloseLock(alias, force)], next := q.next + 1)
  {
  }

  lemma LocksTurn(q: State, t: TaskId, alias: Alias, force: bool, c: Choice)
    requires Works(q, t, CloseLock(alias, force)) && alias !in q.locks && !c.cancelled
    ensures Apply(q, Turn(t, c))
         == q.(tasks := q.tasks[t := CloseRead(alias, force, FindByAlias(q.rows, alias))], locks := q.locks[alias := t])
  {
    hide FindByAlias;
  }

  lemma RecordsTurn(q: State, t: TaskId, alias: Alias, force: bool, id: SessionId, row: Row, c: Choice)
    requires Works(q, t, CloseRead(alias, force, Some(id))) && id in q.rows && q.rows[id] == row && !c.cancelled
    ensures Apply(q, Turn(t, c))
         == q.(tasks := q.tasks[t := CloseMark(alias, force, id)], rows := q.rows[id := Stopped(row, c.reason)])
  {
  }

  lemma BeginsTurn(q: State, t: TaskId, alias: Alias, force: bool, id: SessionId, row: Row, c: Choice)
    requires Works(q, t, CloseMark(alias, force, id)) && id !in q.starts && id in q.rows && q.rows[id] == row
    requires !c.cancelled
    ensures
      var s := q.(timers := q.timers - {id}, registry := q.registry - {id}, next := q.next + 1);
      Apply(q, Turn(t, c))
        == if force then s.(tasks := q.tasks[t := Shut(alias, Forced, id, q.next, ShutRead(Some(row)))])
           else s.(tasks := (q.tasks - {t})[q.next := Shut(alias, Spawned, id, q.next, ShutStart)],
                   locks := q.locks - {alias})
  {
    hide StepCloseMark;
    BeginsClose(q, t, alias, force, id, row, c);
  }

  lemma BeginsClose(q: State, t: TaskId, alias: Alias, force: bool, id: SessionId, row: Row, c: Choice)
    requires id !in q.starts && id in q.rows && q.rows[id] == row && !c.cancelled
    ensures
      var s := q.(timers := q.timers - {id}, registry := q.registry - {id}, next := q.next + 1);
      StepCloseMark(q, t, alias, force, id, c)
        == if force then s.(tasks := q.tasks[t := Shut(alias, Forced, id, q.next, ShutRead(Some(row)))])
           else s.(tasks := (q.tasks - {t})[q.next := Shut(alias, Spawned, id, q.next, ShutStart)],
                   locks := q.locks - {alias})
  {
  }

  /** The request up to _do_close. */
  lemma RequestBegins(q: State, alias: Alias, force: bool, id: SessionId, c: seq<Choice>)
    requires Idle(q, alias) && FindByAlias(q.rows, alias) == Some(id) && id !in q.starts && |c| == 3 && Calm(c)
    ensures Turns(Apply(q, CallClose(alias, force)), q.next, c)
         == Closing(q, alias, force, id, Stopped(q.rows[id], c[1].reason))
  {
    hide Turns, Apply, FindByAlias, Stopped, Marked, Closing;
    assert c == [c[0]] + ([c[1]] + ([c[2]] + []));
    RequestMarks(q, alias, force, id, c[0], c[1], [c[2]] + []);
    MarkedCloses(q, alias, force, id, Stopped(q.rows[id], c[1].reason), c[2]);
  }

  /** The request after it has recorded the reason. */
  ghost function Marked(q: State, alias: Alias, force: bool, id: SessionId, row: Row): State {
    q.(tasks := q.tasks[q.next := CloseMark(alias, force, id)], rows := q.rows[id := row],
       locks := q.locks[alias := q.next], next := q.next + 1)
  }

  lemma RequestMarks(
    q: State, alias: Alias, force: bool, id: SessionId, c0: Choice, c1: Choice, rest: seq<Choice>)
    requires Idle(q, alias) && FindByAlias(q.rows, alias) == Some(id) && !c0.cancelled && !c1.cancelled
    ensures Turns(Apply(q, CallClose(alias, force)), q.next, [c0] + ([c1] + rest))
         == Turns(Marked(q, alias, force, id, Stopped(q.rows[id], c1.reason)), q.next, rest)
  {
    hide Turns, Apply, FindByAlias, Stopped;
    var t, row := q.next, Stopped(q.rows[id], c1.reason);
    AsksToClose(q, alias, force);
    var q1 := q.(tasks := q.tasks[t := CloseLock(alias, force)], next := t + 1);
    FirstTurn(q1, t, c0, [c1] + rest);
    LocksTurn(q1, t, alias, force, c0);
    var q2 := q.(tasks := q.tasks[t := CloseRead(alias, force, Some(id))], locks := q.locks[alias := t], next := t + 1);
    SameTwice(q, t, CloseLock(alias, force), CloseRead(alias, force, Some(id)));
    FirstTurn(q2, t, c1, rest);
    RecordsTurn(q2, t, alias, force, id, q.rows[id], c1);
    SameTwice(q, t, CloseRead(alias, force, Some(id)), CloseMark(alias, force, id));
  }

  lemma MarkedCloses(q: State, alias: Alias, force: bool, id: SessionId, row: Row, c: Choice)
    requires Idle(q, alias) && id !in q.starts && !c.cancelled
    ensures Turns(Marked(q, alias, force, id, row), q.next, [c] + []) == Closing(q, alias, force, id, row)
  {
    hide Turns, Apply;
    var t, s := q.next, Marked(q, alias, force, id, row);
    FirstTurn(s, t, c, []);
    MarkedWorks(q, alias, force, id, row);
    MarkedBegins(q, alias, force, id, row);
    hide Marked, Closing;
    BeginsTurn(s, t, alias, force, id, row, c);
    NoMoreTurns(Closing(q, alias, force, id, row), t);
  }

  lemma MarkedWorks(q: State, alias: Alias, force: bool, id: SessionId, row: Row)
    ensures var s := Marked(q, alias, force, id, row);
      && Works(s, q.next, CloseMark(alias, force, id)) && id in s.rows && s.rows[id] == row && s.starts == q.starts
  {
  }

  lemma MarkedBegins(q: State, alias: Alias, force: bool, id: SessionId, row: Row)
    requires Idle(q, alias)
    ensures
      var m, t := Marked(q, alias, force, id, row), q.next;
      var s := m.(timers := m.timers - {id}, registry := m.registry - {id}, next := m.next + 1);
      Closing(q, alias, force, id, row)
        == if force then s.(tasks := m.tasks[t := Shut(alias, Forced, id, m.next, ShutRead(Some(row)))])
           else s.(tasks := (m.tasks - {t})[m.next := Shut(alias, Spawned, id, m.next, ShutStart)],
                   locks := m.locks - {alias})
  {
    var t := q.next;
    if force {
      SameTwice(q, t, CloseMark(alias, force, id), Shut(alias, Forced, id, t + 1, ShutRead(Some(row))));
    } else {
      TakenOut(q, t, CloseMark(alias, force, id));
      assert q.locks[alias := t] - {alias} == q.locks;
      var m := Marked(q, alias, false, id, row);
      assert (m.tasks - {t})[m.next := Shut(alias, Spawned, id, m.next, ShutStart)]
          == q.tasks[t + 1 := Shut(alias, Spawned, id, t + 1, ShutStart)];
    }
  }

  /** What the request has changed so far. */
  ghost predicate Recorded(q: State, s: State, id: SessionId, row: Row) {
    && s.rows == q.rows[id := row] && s.timers == q.timers - {id}
    && s.registry == q.registry - {id} && s.tunnels == q.tunnels && s.owned == q.owned && s.counts == q.counts
    && s.opens == q.opens && s.starts == q.starts && s.names == q.names && s.unacquired == q.unacquired
  }

  lemma ClosingFields(q: State, alias: Alias, force: bool, id: SessionId, row: Row)
    requires Idle(q, alias)
    ensures var s, t := Closing(q, alias, force, id, row), q.next;
      && Recorded(q, s, id, row)
      && (force ==>
            && s.tasks == q.tasks[t := Shut(alias, Forced, id, t + 1, ShutRead(Some(row)))]
            && s.tasks - {t} == q.tasks && s.locks - {alias} == q.locks)
      && (!force ==> s.tasks == q.tasks[t + 1 := Shut(alias, Spawned, id, t + 1, ShutStart)] && s.locks == q.locks)
  {
    var t := q.next;
    if force {
      assert q.tasks[t := Shut(alias, Forced, id, t + 1, ShutRead(Some(row)))] - {t} == q.tasks;
      assert q.locks[alias := t] - {alias} == q.locks;
    } else {
      assert Closing(q, alias, false, id, row).locks == q.locks;
    }
  }

  lemma SameTwice(q: State, t: TaskId, task: Task, task': Task)
    ensures q.tasks[t := task][t := task'] == q.tasks[t := task']
  {
  }

  /** What a close request leaves behind once it and the close it spawns have run alone. */
  ghost predicate CloseLeaves(
    q: State, q': State, id: SessionId, reason: CloseReason, force: bool, c1: Choice, c2: Choice)
    requires id in q.rows
  {
    var row, tunnel := q.rows[id], id in q.tunnels;
    var told := ToldBy(row, tunnel, force, c1, c2);
    && q'.rows == (if told.deletes then q.rows - {id}
                   else q.rows[id := FailedRow(Stopped(row, reason), told.absent, tunnel, c2.drained)])
    && (if told.keeps then id in q'.tunnels && q'.tunnels - {id} == q.tunnels - {id}
        else q'.tunnels == q.tunnels - {id})
    && SlotsAfter(q, q', id, told.deletes)
    && q'.tasks == q.tasks && q'.locks == q.locks
  }

  ghost predicate SlotsAfter(q: State, q': State, id: SessionId, deletes: bool) {
    && q'.registry == q.registry - {id} && q'.timers == q.timers - {id}
    && q'.owned == (if deletes then q.owned - {id} else q.owned)
    && q'.counts == (if deletes then q.counts - {id} else q.counts)
    && q'.opens == q.opens && q'.starts == q.starts && q'.names == q.names && q'.unacquired == q.unacquired
  }

  lemma SlotsClosedUp(
    q: State, s: State, q': State, t: TaskId, id: SessionId, row: Row, forced: bool, c1: Choice, c2: Choice)
    requires Recorded(q, s, id, row) && ShutLeaves(s, q', t, id, row, forced, c1, c2)
    ensures SlotsAfter(q, q', id, ToldBy(row, id in q.tunnels, forced, c1, c2).deletes)
  {
    hide ToldBy, FailedRow;
    assert q.registry - {id} - {id} == q.registry - {id};
  }

  lemma SameTold(row: Row, reason: CloseReason, tunnel: bool, forced: bool, c1: Choice, c2: Choice)
    ensures ToldBy(Stopped(row, reason), tunnel, forced, c1, c2) == ToldBy(row, tunnel, forced, c1, c2)
  {
  }

  lemma ShutClosesUp(
    q: State, s: State, q': State, alias: Alias, force: bool, id: SessionId, reason: CloseReason, t: TaskId, c1: Choice,
    c2: Choice)
    requires id in q.rows && t !in q.tasks && alias !in q.locks
    requires ShutLeaves(s, q', t, id, Stopped(q.rows[id], reason), force, c1, c2)
    requires Recorded(q, s, id, Stopped(q.rows[id], reason))
    requires q'.tasks == q.tasks && q'.locks == q.locks
    ensures CloseLeaves(q, q', id, reason, force, c1, c2)
  {
    hide ToldBy, FailedRow, Stopped;
    SameTold(q.rows[id], reason, id in q.tunnels, force, c1, c2);
    hide SlotsAfter;
    var row := Stopped(q.rows[id], reason);
    SlotsClosedUp(q, s, q', t, id, row, force, c1, c2);
    assert q.rows[id := row] - {id} == q.rows - {id};
    var absent := ToldBy(q.rows[id], id in q.tunnels, force, c1, c2).absent;
    var failed := FailedRow(row, absent, id in q.tunnels, c2.drained);
    assert q.rows[id := row][id := failed] == q.rows[id := failed];
    assert (q.tunnels - {id})[id := s.next] - {id} == q.tunnels - {id};
  }

  lemma RecordedStill(q: State, s: State, s1: State, id: SessionId, row: Row)
    requires Recorded(q, s, id, row) && s1 == s.(tasks := s1.tasks)
    ensures Recorded(q, s1, id, row) && id in s.rows && s.rows[id] == row
  {
  }

  lemma RecordedRow(q: State, s: State, id: SessionId, row: Row)
    requires Recorded(q, s, id, row)
    ensures id in s.rows && s.rows[id] == row
  {
  }

  /** A forced close request, served alone. */
  lemma ForcedCloseServed(q: State, alias: Alias, id: SessionId, begin: seq<Choice>, c: seq<Choice>)
    requires Idle(q, alias) && FindByAlias(q.rows, alias) == Some(id) && id !in q.starts
    requires |begin| == 3 && Calm(begin) && |c| == 6 && Calm(c)
    ensures
      var s := Turns(Apply(q, CallClose(alias, true)), q.next, begin);
      CloseLeaves(q, Turns(s, q.next, c), id, begin[1].reason, true, c[1], c[2])
  {
    hide Turns, Apply, FindByAlias, Stopped, ShutLeaves, CloseLeaves;
    var t, row := q.next, Stopped(q.rows[id], begin[1].reason);
    RequestBegins(q, alias, true, id, begin);
    hide Closing, Recorded;
    var s := Closing(q, alias, true, id, row);
    ClosingFields(q, alias, true, id, row);
    RecordedRow(q, s, id, row);
    ShutAloneLeaves(s, t, alias, Forced, id, t + 1, row, c);
    ShutClosesUp(q, s, Turns(s, t, c), alias, true, id, begin[1].reason, t, c[1], c[2]);
  }

  /** A close request, served alone, and then the close it spawned. */
  lemma CloseServed(q: State, alias: Alias, id: SessionId, begin: seq<Choice>, first: Choice, c: seq<Choice>)
    requires Idle(q, alias) && FindByAlias(q.rows, alias) == Some(id) && id !in q.starts
    requires |begin| == 3 && Calm(begin) && |c| == 6 && Calm(c) && !first.cancelled
    ensures
      var s := Turns(Apply(q, CallClose(alias, false)), q.next, begin);
      CloseLeaves(q, Turns(s, q.next + 1, [first] + c), id, begin[1].reason, false, c[1], c[2])
  {
    hide Turns, Apply, FindByAlias, Stopped, Closing, CloseLeaves, Recorded;
    var row := Stopped(q.rows[id], begin[1].reason);
    RequestBegins(q, alias, false, id, begin);
    ClosingFields(q, alias, false, id, row);
    SpawnedCloses(q, Closing(q, alias, false, id, row), alias, id, begin[1].reason, first, c);
  }

  lemma SpawnedCloses(
    q: State, s: State, alias: Alias, id: SessionId, reason: CloseReason, first: Choice, c: seq<Choice>)
    requires Idle(q, alias) && id in q.rows && |c| == 6 && Calm(c) && !first.cancelled
    requires Recorded(q, s, id, Stopped(q.rows[id], reason)) && s.locks == q.locks
    requires s.tasks == q.tasks[q.next + 1 := Shut(alias, Spawned, id, q.next + 1, ShutStart)]
    ensures CloseLeaves(q, Turns(s, q.next + 1, [first] + c), id, reason, false, c[1], c[2])
  {
    hide Turns, Apply, Stopped, CloseLeaves, Recorded;
    var u, row := q.next + 1, Stopped(q.rows[id], reason);
    var task := Shut(alias, Spawned, id, u, ShutRead(Some(row)));
    RecordedRow(q, s, id, row);
    FirstTurn(s, u, first, c);
    StartsTurn(s, u, alias, id, u, row, first);
    SameTwice(q, u, Shut(alias, Spawned, id, u, ShutStart), task);
    var s1 := s.(tasks := q.tasks[u := task]);
    RecordedStill(q, s, s1, id, row);
    SpawnedRuns(q, s1, alias, id, reason, u, c);
  }

  lemma SpawnedRuns(
    q: State, s: State, alias: Alias, id: SessionId, reason: CloseReason, u: TaskId, c: seq<Choice>)
    requires id in q.rows && |c| == 6 && Calm(c) && u !in q.tasks && alias !in q.locks
    requires Recorded(q, s, id, Stopped(q.rows[id], reason)) && s.locks == q.locks
    requires s.tasks == q.tasks[u := Shut(alias, Spawned, id, u, ShutRead(Some(Stopped(q.rows[id], reason))))]
    ensures CloseLeaves(q, Turns(s, u, c), id, reason, false, c[1], c[2])
  {
    hide Turns, Stopped, ShutLeaves, CloseLeaves, Recorded;
    var row := Stopped(q.rows[id], reason);
    RecordedRow(q, s, id, row);
    ShutAloneLeaves(s, u, alias, Spawned, id, u, row, c);
    TakenOut(q, u, s.tasks[u]);
    ShutClosesUp(q, s, Turns(s, u, c), alias, false, id, reason, u, c[1], c[2]);
  }

  lemma TakenOut(q: State, t: TaskId, task: Task)
    requires t !in q.tasks
    ensures q.tasks[t := task] - {t} == q.tasks
  {
  }

  lemma StartsTurn(q: State, t: TaskId, alias: Alias, id: SessionId, op: nat, row: Row, c: Choice)
    requires Works(q, t, Shut(alias, Spawned, id, op, ShutStart)) && id in q.rows && q.rows[id] == row && !c.cancelled
    ensures Apply(q, Turn(t, c)) == q.(tasks := q.tasks[t := Shut(alias, Spawned, id, op, ShutRead(Some(row)))])
  {
    hide StepShut;
    StartsClose(q, t, alias, id, op, row, c);
  }

  lemma StartsClose(q: State, t: TaskId, alias: Alias, id: SessionId, op: nat, row: Row, c: Choice)
    requires id in q.rows && q.rows[id] == row && !c.cancelled
    ensures StepShut(q, t, alias, Spawned, id, op, ShutStart, c)
         == q.(tasks := q.tasks[t := Shut(alias, Spawned, id, op, ShutRead(Some(row)))])
  {
  }

  /** With no session of the alias there is nothing to close. */
  lemma NothingToClose(q: State, alias: Alias, force: bool, c: seq<Choice>)
    requires Idle(q, alias) && FindByAlias(q.rows, alias) == None && |c| == 2 && Calm(c)
    ensures Turns(Apply(q, CallClose(alias, force)), q.next, c) == q.(next := q.next + 1)
  {
    hide Turns, Apply, FindByAlias;
    var t := q.next;
    assert c == [c[0]] + ([c[1]] + []);
    AsksToClose(q, alias, force);
    var q1 := q.(tasks := q.tasks[t := CloseLock(alias, force)], next := t + 1);
    FirstTurn(q1, t, c[0], [c[1]] + []);
    LocksTurn(q1, t, alias, force, c[0]);
    SameTwice(q, t, CloseLock(alias, force), CloseRead(alias, force, None));
    FindsNothing(q, alias, force, c[1]);
  }

  lemma FindsNothing(q: State, alias: Alias, force: bool, c: Choice)
    requires Idle(q, alias)
    ensures
      var task := CloseRead(alias, force, None);
      var s := q.(tasks := q.tasks[q.next := task], locks := q.locks[alias := q.next], next := q.next + 1);
      Turns(s, q.next, [c] + []) == q.(next := q.next + 1)
  {
    hide Turns, Apply;
    var t, task := q.next, CloseRead(alias, force, None);
    var s := q.(tasks := q.tasks[t := task], locks := q.locks[alias := t], next := t + 1);
    FirstTurn(s, t, c, []);
    LeavesTurn(s, t, alias, force, c);
    TakenOut(q, t, task);
    assert q.locks[alias := t] - {alias} == q.locks;
    NoMoreTurns(q.(next := t + 1), t);
  }

  lemma LeavesTurn(q: State, t: TaskId, alias: Alias, force: bool, c: Choice)
    requires Works(q, t, CloseRead(alias, force, None))
    ensures Apply(q, Turn(t, c)) == q.(tasks := q.tasks - {t}, locks := q.locks - {alias})
  {
  }
}
