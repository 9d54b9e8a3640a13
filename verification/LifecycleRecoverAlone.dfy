/** Startup recovery of one record, with nothing else taking a turn. */
module LifecycleRecoverAlone {
  import opened Wrappers
  import opened Records
  import opened Database
  import opened Lifecycle
  import opened LifecycleInvariant
  import opened LifecycleEffects
  import opened LifecycleTurns
  import opened LifecycleCloseAlone

  // ---- one reattachment ------------------------------------------------------

  lemma AttachApplies(
    q: State, t: TaskId, alias: Alias, on: AttachFor, id: SessionId, row: Row, op: nat, step: AttachStep, c: Choice)
    requires Works(q, t, Attach(alias, on, id, row, op, step))
    ensures Apply(q, Turn(t, c)) == StepAttach(q, t, alias, on, id, row, op, step, c)
  {
    hide StepAttach;
  }

  /** Why an attempt fails that finds a running process or none; None for any other failure. */
  ghost function Why(row: Row, c: Choice): Option<Unavailable> {
    if !c.connected then None
    else if !c.inspection.running then (if c.removed then Some(Absent) else None)
    else if Confirms(c.inspection, row) then None
    else Some(IdentityFromInspection(row, c.inspection).error)
  }

  ghost function Said(id: SessionId, op: nat, c: Choice): seq<Act> {
    if c.connected && !c.inspection.running then [Confirmed(op, id), Removing(op, id)] else []
  }

  lemma FailsTurn(
    q: State, t: TaskId, alias: Alias, on: AttachFor, id: SessionId, row: Row, op: nat, c: Choice)
    requires !c.cancelled && !(c.connected && Confirms(c.inspection, row) && c.healthy)
    ensures StepAttach(q, t, alias, on, id, row, op, AttachBegin(true), c)
         == AttachFailed(Retain(q.(log := q.log + Said(id, op, c)), id, c.closed), t, alias, on, id, row, op,
                         if c.closed then Why(row, c) else None, c)
  {
    hide AttachFailed, IdentityFromInspection, Confirms, Retain;
    InspectionDecides(row, c.inspection);
    RunsIfConfirmed(row, c.inspection);
    assert q.log + [] == q.log;
    assert q.(log := q.log) == q;
  }

  lemma RunsIfConfirmed(row: Row, inspection: Inspection)
    ensures Confirms(inspection, row) ==> inspection.running
  {
  }

  lemma CompletesTurn(
    q: State, t: TaskId, alias: Alias, on: AttachFor, id: SessionId, row: Row, op: nat, c: Choice)
    requires !c.cancelled && c.connected && Confirms(c.inspection, row) && c.healthy && Recoverable(q.rows, id)
    ensures StepAttach(q, t, alias, on, id, row, op, AttachBegin(true), c)
         == q.(tasks := q.tasks[t := Attach(alias, on, id, row, op, AttachComplete(true, c.port))],
               rows := q.rows[id := Recovered(q.rows[id], c)])
  {
    hide IdentityFromInspection, Confirms;
    InspectionDecides(row, c.inspection);
    RunsIfConfirmed(row, c.inspection);
  }

  /** The tunnel is installed, its port published and its watcher spawned. */
  ghost function Tunnelled(q: State, id: SessionId, port: int): State {
    q.(tunnels := q.tunnels[id := q.next], watched := q.watched[q.next := id], next := q.next + 1,
       registry := q.registry[id := port])
  }

  lemma InstallsTurn(
    q: State, t: TaskId, alias: Alias, on: AttachFor, id: SessionId, row: Row, op: nat, port: int, c: Choice)
    requires !c.cancelled && (c.timely || on.ByRecovery?) && id !in q.registry && id in q.rows
    ensures StepAttach(q, t, alias, on, id, row, op, AttachComplete(true, port), c)
         == Tunnelled(q, id, port).(tasks := q.tasks[t := Attach(alias, on, id, row, op, AttachRead(true))])
  {
  }

  lemma ReadsTurn(q: State, t: TaskId, alias: Alias, on: AttachFor, id: SessionId, row: Row, op: nat, c: Choice)
    requires !c.cancelled && (c.timely || on.ByRecovery?)
    ensures StepAttach(q, t, alias, on, id, row, op, AttachRead(true), c) == Attached(q, t, alias, on, id, c)
  {
    hide Attached;
  }

  /** A successful attempt: the row READY as inspected, tunnel and port, and then what the caller does. */
  lemma AttemptSucceeds(
    q: State, t: TaskId, alias: Alias, on: AttachFor, id: SessionId, row: Row, op: nat, c0: Choice, c1: Choice,
    c2: Choice, rest: seq<Choice>)
    requires Works(q, t, Attach(alias, on, id, row, op, AttachBegin(true))) && Recoverable(q.rows, id)
    requires id !in q.registry && !c0.cancelled && !c1.cancelled && !c2.cancelled
    requires on.ByRecovery? || (c1.timely && c2.timely)
    requires c0.connected && Confirms(c0.inspection, row) && c0.healthy
    ensures
      var task := Attach(alias, on, id, row, op, AttachRead(true));
      var s := Tunnelled(q, id, c0.port).(
        tasks := q.tasks[t := task], rows := q.rows[id := Recovered(q.rows[id], c0)]);
      Turns(q, t, [c0] + ([c1] + ([c2] + rest))) == Turns(Attached(s, t, alias, on, id, c2), t, rest)
  {
    hide Turns, Apply, StepAttach, Confirms, Attached;
    var row' := Recovered(q.rows[id], c0);
    var task1 := Attach(alias, on, id, row, op, AttachComplete(true, c0.port));
    var task2 := Attach(alias, on, id, row, op, AttachRead(true));
    FirstTurn(q, t, c0, [c1] + ([c2] + rest));
    AttachApplies(q, t, alias, on, id, row, op, AttachBegin(true), c0);
    CompletesTurn(q, t, alias, on, id, row, op, c0);
    var q1 := q.(tasks := q.tasks[t := task1], rows := q.rows[id := row']);
    FirstTurn(q1, t, c1, [c2] + rest);
    AttachApplies(q1, t, alias, on, id, row, op, task1.step, c1);
    InstallsTurn(q1, t, alias, on, id, row, op, c0.port, c1);
    SameTwice(q, t, task1, task2);
    var q2 := Tunnelled(q, id, c0.port).(tasks := q.tasks[t := task2], rows := q.rows[id := row']);
    FirstTurn(q2, t, c2, rest);
    AttachApplies(q2, t, alias, on, id, row, op, task2.step, c2);
    ReadsTurn(q2, t, alias, on, id, row, op, c2);
  }

  // ---- one record ------------------------------------------------------------

  /** The record at the head of the list is the row as it is, nothing of it is held, and its alias is free. */
  ghost predicate Next(q: State, t: TaskId, id: SessionId, row: Row, rest: seq<Found>) {
    && Works(q, t, RecoverNext([Found(id, row)] + rest)) && row.alias !in q.locks
    && id in q.rows && q.rows[id] == row && id !in q.tunnels && id !in q.registry
    && (row.closeReason.Some? ==> row.state == Stopping || row.state == Error)
    && (row.state == Stopping ==> row.closeReason.Some?)
  }

  /** The helper reports nothing running and confirms the removal of what is left, and the chain closes. */
  predicate Vanished(c: Choice) {
    c.connected && !c.inspection.running && c.removed && c.closed
  }

  /** What recovering the record leaves: its row, the slot, the lock and the rest of the list. */
  ghost predicate RecordOver(q: State, q': State, t: TaskId, id: SessionId, after: Option<Row>, rest: seq<Found>) {
    && q'.rows == (if after.Some? then q.rows[id := after.value] else q.rows - {id})
    && q'.owned == (if after.Some? then q.owned else q.owned - {id})
    && q'.tasks == q.tasks[t := RecoverNext(rest)] && q'.locks == q.locks
    && q'.opens == q.opens && q'.starts == q.starts && q'.names == q.names && q'.recoverer == q.recoverer
    && q'.backlog == q.backlog - {id}
  }

  /** It keeps nothing but a chain that did not close. */
  ghost predicate Holds(q: State, q': State, id: SessionId, closed: bool) {
    && q'.registry == q.registry
    && (if closed then q'.tunnels == q.tunnels else id in q'.tunnels && q'.tunnels - {id} == q.tunnels)
  }

  ghost function Held(q: State, t: TaskId, id: SessionId, alias: Alias): State {
    q.(locks := q.locks[alias := t], backlog := q.backlog - {id})
  }

  lemma TakesAttach(q: State, t: TaskId, id: SessionId, row: Row, rest: seq<Found>, c: Choice)
    requires Next(q, t, id, row, rest) && CanReattach(row)
    ensures Apply(q, Turn(t, c))
         == Held(q, t, id, row.alias).(
              tasks := q.tasks[t := Attach(row.alias, ByRecovery(rest), id, row, q.next, AttachBegin(true))],
              rows := q.rows[id := row.(localPort := None)], next := q.next + 1)
    ensures Recoverable(q.rows[id := row.(localPort := None)], id)
  {
    hide Apply, StartAttach, StartShut;
    var todo := [Found(id, row)] + rest;
    assert todo[0] == Found(id, row) && todo[1..] == rest;
    NextApplies(q, t, todo, c);
    BeginsAttach(Held(q, t, id, row.alias), t, row.alias, rest, id, row, c);
  }

  lemma TakesStopping(q: State, t: TaskId, id: SessionId, row: Row, rest: seq<Found>, c: Choice)
    requires Next(q, t, id, row, rest) && row.state == Stopping
    ensures Apply(q, Turn(t, c))
         == Held(q, t, id, row.alias).(
              tasks := q.tasks[t := Shut(row.alias, Recovering(rest), id, q.next, ShutRead(Some(row)))],
              next := q.next + 1)
  {
    hide Apply, StartAttach, StartShut;
    var todo := [Found(id, row)] + rest;
    assert todo[0] == Found(id, row) && todo[1..] == rest;
    NextApplies(q, t, todo, c);
    BeginsShut(Held(q, t, id, row.alias), t, row.alias, rest, id, row);
  }

  lemma TakesInspect(q: State, t: TaskId, id: SessionId, row: Row, rest: seq<Found>, c: Choice)
    requires Next(q, t, id, row, rest) && row.state == Error && row.closeReason.Some?
    ensures Apply(q, Turn(t, c))
         == Held(q, t, id, row.alias).(
              tasks := q.tasks[t := RecoverInspect(row.alias, id, q.next, rest)], next := q.next + 1)
  {
    hide Apply, StartAttach, StartShut;
    var todo := [Found(id, row)] + rest;
    assert todo[0] == Found(id, row) && todo[1..] == rest;
    NextApplies(q, t, todo, c);
  }

  lemma NextApplies(q: State, t: TaskId, todo: seq<Found>, c: Choice)
    requires Works(q, t, RecoverNext(todo))
    ensures Apply(q, Turn(t, c)) == StepRecoverNext(q, t, todo, c)
  {
    hide StepRecoverNext;
  }

  lemma BeginsAttach(q: State, t: TaskId, alias: Alias, rest: seq<Found>, id: SessionId, row: Row, c: Choice)
    requires id in q.rows && q.rows[id] == row && id !in q.tunnels && Recoverable(q.rows, id)
    ensures StartAttach(q, t, alias, ByRecovery(rest), id, row, c)
         == q.(tasks := q.tasks[t := Attach(alias, ByRecovery(rest), id, row, q.next, AttachBegin(true))],
               rows := q.rows[id := row.(localPort := None)], next := q.next + 1)
  {
  }

  lemma BeginsShut(q: State, t: TaskId, alias: Alias, rest: seq<Found>, id: SessionId, row: Row)
    requires id in q.rows && q.rows[id] == row
    ensures StartShut(q, t, alias, Recovering(rest), id)
         == q.(tasks := q.tasks[t := Shut(alias, Recovering(rest), id, q.next, ShutRead(Some(row)))],
               next := q.next + 1)
  {
  }

  /** A record whose process is confirmed and works is published. */
  lemma RecordPublished(q: State, t: TaskId, id: SessionId, row: Row, rest: seq<Found>, c: seq<Choice>)
    requires Next(q, t, id, row, rest) && CanReattach(row) && |c| == 4 && Calm(c)
    requires c[1].connected && Confirms(c[1].inspection, row) && c[1].healthy
    ensures var q' := Turns(q, t, c);
      && RecordOver(q, q', t, id, Some(Recovered(row, c[1])), rest)
      && q'.tunnels == q.tunnels[id := q.next + 1] && q'.registry == q.registry[id := c[1].port]
      && q'.timers == (if c[3].timed then q.timers + {id} else q.timers)
  {
    hide Turns, Next, RecordOver, Recovered, Confirms, CanReattach;
    assert c == [c[0]] + ([c[1]] + ([c[2]] + ([c[3]] + [])));
    PublishedAlone(q, t, id, row, rest, c[0], c[1], c[2], c[3]);
  }

  lemma PublishedAlone(
    q: State, t: TaskId, id: SessionId, row: Row, rest: seq<Found>, c0: Choice, c1: Choice, c2: Choice, c3: Choice)
    requires Next(q, t, id, row, rest) && CanReattach(row) && !c1.cancelled && !c2.cancelled && !c3.cancelled
    requires c1.connected && Confirms(c1.inspection, row) && c1.healthy
    ensures var q' := Turns(q, t, [c0] + ([c1] + ([c2] + ([c3] + []))));
      && RecordOver(q, q', t, id, Some(Recovered(row, c1)), rest)
      && q'.tunnels == q.tunnels[id := q.next + 1] && q'.registry == q.registry[id := c1.port]
      && q'.timers == (if c3.timed then q.timers + {id} else q.timers)
  {
    hide Turns, Apply, Confirms, Held, RecordOver, Recovered, Attached, Tunnelled;
    HeldFields(q, t, id, row.alias);
    var task := Attach(row.alias, ByRecovery(rest), id, row, q.next, AttachBegin(true));
    FirstTurn(q, t, c0, [c1] + ([c2] + ([c3] + [])));
    TakesAttach(q, t, id, row, rest, c0);
    hide CanReattach;
    var s := Held(q, t, id, row.alias).(
      tasks := q.tasks[t := task], rows := q.rows[id := row.(localPort := None)], next := q.next + 1);
    AttemptSucceeds(s, t, row.alias, ByRecovery(rest), id, row, q.next, c1, c2, c3, []);
    PublishedOver(q, s, t, id, row, rest, c1, c3);
  }

  lemma PublishedOver(
    q: State, s: State, t: TaskId, id: SessionId, row: Row, rest: seq<Found>, c1: Choice, c3: Choice)
    requires Next(q, t, id, row, rest)
    requires var task := Attach(row.alias, ByRecovery(rest), id, row, q.next, AttachBegin(true));
      s == Held(q, t, id, row.alias).(
        tasks := q.tasks[t := task], rows := q.rows[id := row.(localPort := None)], next := q.next + 1)
    ensures
      var task := Attach(row.alias, ByRecovery(rest), id, row, q.next, AttachRead(true));
      var s2 := Tunnelled(s, id, c1.port).(
        tasks := s.tasks[t := task], rows := s.rows[id := Recovered(s.rows[id], c1)]);
      var q' := Turns(Attached(s2, t, row.alias, ByRecovery(rest), id, c3), t, []);
      && RecordOver(q, q', t, id, Some(Recovered(row, c1)), rest)
      && q'.tunnels == q.tunnels[id := q.next + 1] && q'.registry == q.registry[id := c1.port]
      && q'.timers == (if c3.timed then q.timers + {id} else q.timers)
  {
    hide Attached, Recovered, Held, Turns, CanReattach;
    HeldFields(q, t, id, row.alias);
    var task := Attach(row.alias, ByRecovery(rest), id, row, q.next, AttachRead(true));
    var s2 := Tunnelled(s, id, c1.port).(
      tasks := s.tasks[t := task], rows := s.rows[id := Recovered(s.rows[id], c1)]);
    NoMoreTurns(Attached(s2, t, row.alias, ByRecovery(rest), id, c3), t);
    AttachedGoesOn(s2, t, row.alias, rest, id, c3);
    SameRecovered(row, c1);
    assert q.rows[id := row.(localPort := None)][id := Recovered(row, c1)] == q.rows[id := Recovered(row, c1)];
    OverBy(q, s2, t, id, row.alias, s.tasks[t], task, rest);
  }

  lemma SameRecovered(row: Row, c: Choice)
    ensures Recovered(row.(localPort := None), c) == Recovered(row, c)
  {
  }

  lemma AttachedGoesOn(q: State, t: TaskId, alias: Alias, rest: seq<Found>, id: SessionId, c: Choice)
    ensures Attached(q, t, alias, ByRecovery(rest), id, c)
         == q.(tasks := q.tasks[t := RecoverNext(rest)], locks := q.locks - {alias},
               timers := if c.timed then q.timers + {id} else q.timers)
  {
  }

  /** The task goes on with the rest of the list, and the alias is free again. */
  lemma OverBy(
    q: State, s: State, t: TaskId, id: SessionId, alias: Alias, first: Task, last: Task, rest: seq<Found>)
    requires alias !in q.locks && s.tasks == q.tasks[t := first][t := last] && s.locks == q.locks[alias := t]
    ensures s.tasks[t := RecoverNext(rest)] == q.tasks[t := RecoverNext(rest)] && s.locks - {alias} == q.locks
  {
  }

  /** Recovery of a record on its way. */
  ghost function Busy(
    q: State, t: TaskId, id: SessionId, alias: Alias, task: Task, rows: Table, tunnels: map<SessionId, nat>,
    log: seq<Act>, next: nat): State
  {
    Held(q, t, id, alias).(tasks := q.tasks[t := task], rows := rows, tunnels := tunnels, log := log, next := next)
  }

  /** What is left of a chain: nothing, or an entry of its own. */
  ghost function Kept(tunnels: map<SessionId, nat>, id: SessionId, closed: bool, number: nat): map<SessionId, nat> {
    if closed then tunnels else tunnels[id := number]
  }

  ghost predicate AttemptFails(row: Row, c: Choice) {
    !(c.connected && Confirms(c.inspection, row) && c.healthy)
  }

  /** The first two turns of an attempt that fails. */
  lemma AttemptFailsAlone(
    q: State, t: TaskId, id: SessionId, row: Row, rest: seq<Found>, c0: Choice, c1: Choice, more: seq<Choice>)
    requires Next(q, t, id, row, rest) && CanReattach(row) && !c1.cancelled && AttemptFails(row, c1)
    ensures
      var next := if c1.closed then q.next + 1 else q.next + 2;
      var task := Attach(row.alias, ByRecovery(rest), id, row, q.next, AttachBegin(true));
      var s := Busy(q, t, id, row.alias, task, q.rows[id := row.(localPort := None)],
                    Kept(q.tunnels, id, c1.closed, q.next + 1), q.log + Said(id, q.next, c1), next);
      Turns(q, t, [c0] + ([c1] + more))
        == Turns(AttachFailed(s, t, row.alias, ByRecovery(rest), id, row, q.next,
                              if c1.closed then Why(row, c1) else None, c1), t, more)
  {
    hide Turns, Apply, Confirms, AttachFailed, StepAttach, Why, Said;
    var task := Attach(row.alias, ByRecovery(rest), id, row, q.next, AttachBegin(true));
    FirstTurn(q, t, c0, [c1] + more);
    TakesAttach(q, t, id, row, rest, c0);
    var s := Held(q, t, id, row.alias).(
      tasks := q.tasks[t := task], rows := q.rows[id := row.(localPort := None)], next := q.next + 1);
    FirstTurn(s, t, c1, more);
    AttachApplies(s, t, row.alias, ByRecovery(rest), id, row, q.next, AttachBegin(true), c1);
    FailsTurn(s, t, row.alias, ByRecovery(rest), id, row, q.next, c1);
  }

  lemma ReleasesSlot(q: State, t: TaskId, id: SessionId, alias: Alias, rest: seq<Found>, c: Choice)
    requires Works(q, t, RecoverDelete(alias, id, rest))
    ensures Apply(q, Turn(t, c))
         == q.(tasks := q.tasks[t := RecoverNext(rest)], locks := q.locks - {alias}, owned := q.owned - {id})
  {
  }

  lemma Clears(q: State, t: TaskId, id: SessionId, alias: Alias, rest: seq<Found>, c: Choice)
    requires Works(q, t, RecoverClear(alias, id, rest))
    ensures Apply(q, Turn(t, c))
         == q.(tasks := q.tasks[t := RecoverMark(alias, id, rest)], rows := MarkError(q.rows, id, RecoveryFailed))
  {
    hide MarkError;
  }

  lemma MarksRow(q: State, t: TaskId, id: SessionId, alias: Alias, rest: seq<Found>, c: Choice)
    requires Works(q, t, RecoverMark(alias, id, rest))
    ensures Apply(q, Turn(t, c)) == q.(tasks := q.tasks[t := RecoverNext(rest)], locks := q.locks - {alias})
  {
  }

  /** The end of a record whose row stays. */
  lemma BusyMarked(
    q: State, t: TaskId, id: SessionId, alias: Alias, rest: seq<Found>, rows: Table, after: Row, closed: bool,
    number: nat, log: seq<Act>, next: nat, c: Choice)
    requires alias !in q.locks && id !in q.tunnels && rows == q.rows[id := after]
    ensures
      var task := RecoverMark(alias, id, rest);
      var s := Busy(q, t, id, alias, task, rows, Kept(q.tunnels, id, closed, number), log, next);
      var q' := Turns(s, t, [c]);
      RecordOver(q, q', t, id, Some(after), rest) && Holds(q, q', id, closed)
  {
    hide Turns, Apply;
    var task := RecoverMark(alias, id, rest);
    var s := Busy(q, t, id, alias, task, rows, Kept(q.tunnels, id, closed, number), log, next);
    assert [c] == [c] + [];
    FirstTurn(s, t, c, []);
    MarksRow(s, t, id, alias, rest, c);
    NoMoreTurns(s.(tasks := s.tasks[t := RecoverNext(rest)], locks := s.locks - {alias}), t);
    OverBy(q, s, t, id, alias, task, task, rest);
    assert q.tunnels[id := number] - {id} == q.tunnels;
  }

  /** The process is gone and the row is not READY: deleted, and the slot given back. */
  lemma RecordGone(q: State, t: TaskId, id: SessionId, row: Row, rest: seq<Found>, c: seq<Choice>)
    requires Next(q, t, id, row, rest) && CanReattach(row) && |c| == 3 && Calm(c)
    requires row.state != Ready && Vanished(c[1])
    ensures var q' := Turns(q, t, c); RecordOver(q, q', t, id, None, rest) && Holds(q, q', id, true)
  {
    hide Turns, Apply, AttachFailed;
    assert c == [c[0]] + ([c[1]] + [c[2]]);
    var alias, op := row.alias, q.next;
    var rows := q.rows[id := row.(localPort := None)];
    AttemptFailsAlone(q, t, id, row, rest, c[0], c[1], [c[2]]);
    var log := q.log + Said(id, op, c[1]);
    var first := Attach(alias, ByRecovery(rest), id, row, op, AttachBegin(true));
    var s := Busy(q, t, id, alias, first, rows, q.tunnels, log, op + 1);
    DeletesFailed(s, t, alias, rest, id, row, op, c[1]);
    var task := RecoverDelete(alias, id, rest);
    var s1 := s.(tasks := s.tasks[t := task], rows := rows - {id}, log := log + [Deleted(op, id, false)]);
    assert [c[2]] == [c[2]] + [];
    FirstTurn(s1, t, c[2], []);
    ReleasesSlot(s1, t, id, alias, rest, c[2]);
    NoMoreTurns(
      s1.(tasks := s1.tasks[t := RecoverNext(rest)], locks := s1.locks - {alias}, owned := q.owned - {id}), t);
    OverBy(q, s1, t, id, alias, first, task, rest);
    assert rows - {id} == q.rows - {id};
  }

  lemma DeletesFailed(q: State, t: TaskId, alias: Alias, rest: seq<Found>, id: SessionId, row: Row, op: nat, c: Choice)
    requires row.state == Starting || row.state == Error
    ensures AttachFailed(q, t, alias, ByRecovery(rest), id, row, op, Some(Absent), c)
         == q.(tasks := q.tasks[t := RecoverDelete(alias, id, rest)], rows := q.rows - {id},
               log := q.log + [Deleted(op, id, false)])
  {
  }

  /** The process of a READY row is gone: an error without identity. */
  lemma RecordCleared(q: State, t: TaskId, id: SessionId, row: Row, rest: seq<Found>, c: seq<Choice>)
    requires Next(q, t, id, row, rest) && CanReattach(row) && |c| == 4 && Calm(c)
    requires row.state == Ready && Vanished(c[1])
    ensures
      var q' := Turns(q, t, c);
      var after := row.(state := Error, errorCode := Some(RecoveryFailed), identity := NO_IDENTITY, localPort := None);
      RecordOver(q, q', t, id, Some(after), rest) && Holds(q, q', id, true)
  {
    hide Turns, Apply, AttachFailed, RecordOver, Holds, MarkError, ClearRemoteIdentity, Said, Busy, CanReattach;
    assert c == [c[0]] + ([c[1]] + ([c[2]] + [c[3]]));
    var alias, op := row.alias, q.next;
    var rows := q.rows[id := row.(localPort := None)];
    AttemptFailsAlone(q, t, id, row, rest, c[0], c[1], [c[2]] + [c[3]]);
    var log := q.log + Said(id, op, c[1]);
    var first := Attach(alias, ByRecovery(rest), id, row, op, AttachBegin(true));
    ClearsFailed(q, t, id, alias, first, rows, log, rest, row, op, c[1]);
    var task := RecoverClear(alias, id, rest);
    var s1 := Busy(q, t, id, alias, task, ClearRemoteIdentity(rows, id), q.tunnels, log, op + 1);
    FirstTurn(s1, t, c[2], [c[3]]);
    ClearsBusy(q, t, id, alias, rest, ClearRemoteIdentity(rows, id), log, op + 1, c[2]);
    var after := row.(state := Error, errorCode := Some(RecoveryFailed), identity := NO_IDENTITY, localPort := None);
    var rows2 := MarkError(ClearRemoteIdentity(rows, id), id, RecoveryFailed);
    MarkedRows(q.rows, id, row);
    BusyMarked(q, t, id, alias, rest, rows2, after, true, 0, log, op + 1, c[3]);
  }

  lemma ClearsBusy(
    q: State, t: TaskId, id: SessionId, alias: Alias, rest: seq<Found>, rows: Table, log: seq<Act>, next: nat,
    c: Choice)
    ensures
      Apply(Busy(q, t, id, alias, RecoverClear(alias, id, rest), rows, q.tunnels, log, next), Turn(t, c))
        == Busy(q, t, id, alias, RecoverMark(alias, id, rest), MarkError(rows, id, RecoveryFailed), q.tunnels, log,
                next)
  {
    hide Apply, MarkError;
    var s := Busy(q, t, id, alias, RecoverClear(alias, id, rest), rows, q.tunnels, log, next);
    Clears(s, t, id, alias, rest, c);
    SameTwice(q, t, RecoverClear(alias, id, rest), RecoverMark(alias, id, rest));
  }

  lemma ClearsFailed(
    q: State, t: TaskId, id: SessionId, alias: Alias, first: Task, rows: Table, log: seq<Act>, rest: seq<Found>,
    row: Row, op: nat, c: Choice)
    requires row.state == Ready
    ensures
      AttachFailed(Busy(q, t, id, alias, first, rows, q.tunnels, log, op + 1), t, alias, ByRecovery(rest), id, row, op,
                   Some(Absent), c)
        == Busy(q, t, id, alias, RecoverClear(alias, id, rest), ClearRemoteIdentity(rows, id), q.tunnels, log, op + 1)
  {
    hide ClearRemoteIdentity;
    SameTwice(q, t, first, RecoverClear(alias, id, rest));
  }

  /** Another failure: an error that keeps its identity. */
  lemma RecordMarked(q: State, t: TaskId, id: SessionId, row: Row, rest: seq<Found>, c: seq<Choice>)
    requires Next(q, t, id, row, rest) && CanReattach(row) && |c| == 3 && Calm(c) && AttemptFails(row, c[1])
    requires !Vanished(c[1]) && (row.state != Error || (c[1].closed && Why(row, c[1]).Some?))
    ensures
      var q' := Turns(q, t, c);
      var after := row.(state := Error, errorCode := Some(RecoveryFailed), localPort := None);
      RecordOver(q, q', t, id, Some(after), rest) && Holds(q, q', id, c[1].closed)
  {
    hide Turns, Apply, AttachFailed, RecordOver, Holds, Confirms, MarkError, Said, Busy, Kept;
    assert c == [c[0]] + ([c[1]] + [c[2]]);
    var alias, op := row.alias, q.next;
    var rows := q.rows[id := row.(localPort := None)];
    AttemptFailsAlone(q, t, id, row, rest, c[0], c[1], [c[2]]);
    var log, next := q.log + Said(id, op, c[1]), if c[1].closed then op + 1 else op + 2;
    var first := Attach(alias, ByRecovery(rest), id, row, op, AttachBegin(true));
    var why := if c[1].closed then Why(row, c[1]) else None;
    var tunnels := Kept(q.tunnels, id, c[1].closed, op + 1);
    WhyNotAbsent(row, c[1]);
    MarksFailed(q, t, id, alias, first, rows, tunnels, log, next, rest, row, op, why, c[1]);
    var after := row.(state := Error, errorCode := Some(RecoveryFailed), localPort := None);
    MarkedRows(q.rows, id, row);
    BusyMarked(q, t, id, alias, rest, MarkError(rows, id, RecoveryFailed), after, c[1].closed, op + 1, log, next, c[2]);
  }

  lemma MarkedRows(rows: Table, id: SessionId, row: Row)
    requires id in rows && rows[id] == row
    ensures var unported := rows[id := row.(localPort := None)];
      && MarkError(unported, id, RecoveryFailed)
           == rows[id := row.(state := Error, errorCode := Some(RecoveryFailed), localPort := None)]
      && MarkError(ClearRemoteIdentity(unported, id), id, RecoveryFailed)
           == rows[id := row.(state := Error, errorCode := Some(RecoveryFailed), identity := NO_IDENTITY,
                              localPort := None)]
  {
  }

  lemma WhyNotAbsent(row: Row, c: Choice)
    ensures c.closed && Why(row, c) == Some(Absent) <==> Vanished(c)
  {
    hide IdentityFromInspection, Confirms;
    InspectionDecides(row, c.inspection);
    RunsIfConfirmed(row, c.inspection);
  }

  lemma MarksFailed(
    q: State, t: TaskId, id: SessionId, alias: Alias, first: Task, rows: Table, tunnels: map<SessionId, nat>,
    log: seq<Act>, next: nat, rest: seq<Found>, row: Row, op: nat, why: Option<Unavailable>, c: Choice)
    requires why != Some(Absent) && (why.Some? || row.state != Error)
    ensures
      AttachFailed(Busy(q, t, id, alias, first, rows, tunnels, log, next), t, alias, ByRecovery(rest), id, row, op, why,
                   c)
        == Busy(q, t, id, alias, RecoverMark(alias, id, rest), MarkError(rows, id, RecoveryFailed), tunnels, log, next)
  {
    hide MarkError;
    SameTwice(q, t, first, RecoverMark(alias, id, rest));
  }

  /** And an ERROR row that could not be reached stays as it is. */
  lemma RecordLeft(q: State, t: TaskId, id: SessionId, row: Row, rest: seq<Found>, c: seq<Choice>)
    requires Next(q, t, id, row, rest) && CanReattach(row) && |c| == 2 && Calm(c) && AttemptFails(row, c[1])
    requires row.state == Error && (!c[1].closed || Why(row, c[1]).None?)
    ensures
      var q' := Turns(q, t, c);
      RecordOver(q, q', t, id, Some(row.(localPort := None)), rest) && Holds(q, q', id, c[1].closed)
  {
    hide Turns, Apply, AttachFailed, Confirms, Said, Busy, RecordOver, Holds, Kept, CanReattach, Why;
    assert c == [c[0]] + ([c[1]] + []);
    var alias, op := row.alias, q.next;
    var rows := q.rows[id := row.(localPort := None)];
    AttemptFailsAlone(q, t, id, row, rest, c[0], c[1], []);
    var log, next := q.log + Said(id, op, c[1]), if c[1].closed then op + 1 else op + 2;
    var first := Attach(alias, ByRecovery(rest), id, row, op, AttachBegin(true));
    var s := Busy(q, t, id, alias, first, rows, Kept(q.tunnels, id, c[1].closed, op + 1), log, next);
    LeavesFailed(s, t, alias, rest, id, row, op, c[1]);
    BusyLeft(q, t, id, alias, first, rest, row.(localPort := None), c[1].closed, op + 1, log, next);
  }

  lemma BusyLeft(
    q: State, t: TaskId, id: SessionId, alias: Alias, first: Task, rest: seq<Found>, after: Row, closed: bool,
    number: nat, log: seq<Act>, next: nat)
    requires alias !in q.locks && id !in q.tunnels
    ensures
      var s := Busy(q, t, id, alias, first, q.rows[id := after], Kept(q.tunnels, id, closed, number), log, next);
      var q' := Turns(s.(tasks := s.tasks[t := RecoverNext(rest)], locks := s.locks - {alias}), t, []);
      RecordOver(q, q', t, id, Some(after), rest) && Holds(q, q', id, closed)
  {
    hide Turns;
    var s := Busy(q, t, id, alias, first, q.rows[id := after], Kept(q.tunnels, id, closed, number), log, next);
    NoMoreTurns(s.(tasks := s.tasks[t := RecoverNext(rest)], locks := s.locks - {alias}), t);
    OverBy(q, s, t, id, alias, first, first, rest);
    assert q.tunnels[id := number] - {id} == q.tunnels;
  }

  lemma LeavesFailed(q: State, t: TaskId, alias: Alias, rest: seq<Found>, id: SessionId, row: Row, op: nat, c: Choice)
    requires row.state == Error
    ensures AttachFailed(q, t, alias, ByRecovery(rest), id, row, op, None, c)
         == q.(tasks := q.tasks[t := RecoverNext(rest)], locks := q.locks - {alias})
  {
  }

  /** A STOPPING row: its close is finished. */
  lemma RecordStopping(q: State, t: TaskId, id: SessionId, row: Row, rest: seq<Found>, c: seq<Choice>)
    requires Next(q, t, id, row, rest) && row.state == Stopping && |c| == 7 && Calm(c)
    ensures
      var q', told := Turns(q, t, c), ToldBy(row, false, false, c[2], c[3]);
      RecordOver(q, q', t, id, if told.deletes then None else Some(FailedRow(row, told.absent, false, true)), rest)
      && Holds(q, q', id, c[3].closed)
  {
    hide Turns, Apply, ToldBy, FailedRow, ShutLeaves, Held, RecordOver, Holds, CanReattach;
    var alias, op := row.alias, q.next;
    assert c == [c[0]] + c[1..];
    FirstTurn(q, t, c[0], c[1..]);
    TakesStopping(q, t, id, row, rest, c[0]);
    var task := Shut(alias, Recovering(rest), id, op, ShutRead(Some(row)));
    var s := Held(q, t, id, alias).(tasks := q.tasks[t := task], next := op + 1);
    HeldFields(q, t, id, alias);
    ShutAloneLeaves(s, t, alias, Recovering(rest), id, op, row, c[1..]);
    StoppedOver(q, s, Turns(s, t, c[1..]), t, id, row, rest, task, c[2], c[3]);
  }

  lemma HeldFields(q: State, t: TaskId, id: SessionId, alias: Alias)
    ensures var s := Held(q, t, id, alias);
      && s.rows == q.rows && s.tunnels == q.tunnels && s.log == q.log && s.locks == q.locks[alias := t]
      && s == q.(locks := s.locks, backlog := q.backlog - {id})
  {
  }

  lemma StoppedOver(
    q: State, s: State, q': State, t: TaskId, id: SessionId, row: Row, rest: seq<Found>, task: Task, c1: Choice,
    c2: Choice)
    requires Next(q, t, id, row, rest)
    requires s == Held(q, t, id, row.alias).(tasks := q.tasks[t := task], next := q.next + 1)
    requires ShutLeaves(s, q', t, id, row, false, c1, c2)
    requires q'.tasks == s.tasks[t := RecoverNext(rest)] && q'.locks == s.locks - {row.alias}
    ensures
      var told := ToldBy(row, false, false, c1, c2);
      RecordOver(q, q', t, id, if told.deletes then None else Some(FailedRow(row, told.absent, false, true)), rest)
    ensures Holds(q, q', id, c2.closed)
  {
    hide ToldBy, FailedRow, Holds, CanReattach;
    OverBy(q, s, t, id, row.alias, task, task, rest);
    NoTunnel(row, ToldBy(row, false, false, c1, c2).absent, c2.drained);
    StoppedHolds(q, s, q', t, id, row, c1, c2);
  }

  lemma StoppedHolds(q: State, s: State, q': State, t: TaskId, id: SessionId, row: Row, c1: Choice, c2: Choice)
    requires id !in q.tunnels && id !in q.registry && s.tunnels == q.tunnels && s.registry == q.registry
    requires ShutLeaves(s, q', t, id, row, false, c1, c2)
    ensures Holds(q, q', id, c2.closed)
  {
    hide ToldBy, FailedRow;
    KeepsWhenOpen(row, c1, c2);
    assert q.tunnels - {id} == q.tunnels && q.registry - {id} == q.registry;
    assert q.tunnels[id := s.next] - {id} == q.tunnels;
  }

  lemma KeepsWhenOpen(row: Row, c1: Choice, c2: Choice)
    ensures ToldBy(row, false, false, c1, c2).keeps == !c2.closed
  {
  }

  lemma NoTunnel(row: Row, absent: bool, drained: bool)
    ensures FailedRow(row, absent, false, drained) == FailedRow(row, absent, false, true)
  {
  }

  /** The first two turns of looking at an ERROR row whose close was asked for. */
  lemma InspectsAlone(
    q: State, t: TaskId, id: SessionId, row: Row, rest: seq<Found>, c0: Choice, c1: Choice, more: seq<Choice>)
    requires Next(q, t, id, row, rest) && row.state == Error && row.closeReason.Some?
    ensures
      var task := RecoverInspect(row.alias, id, q.next, rest);
      var s := Busy(q, t, id, row.alias, task, q.rows, q.tunnels, q.log, q.next + 1);
      Turns(q, t, [c0] + ([c1] + more)) == Turns(Apply(s, Turn(t, c1)), t, more)
  {
    hide Turns, Apply, Held, Busy;
    FirstTurn(q, t, c0, [c1] + more);
    TakesInspect(q, t, id, row, rest, c0);
    BusyInspects(q, t, id, row.alias, rest);
    var task := RecoverInspect(row.alias, id, q.next, rest);
    FirstTurn(Busy(q, t, id, row.alias, task, q.rows, q.tunnels, q.log, q.next + 1), t, c1, more);
  }

  /** An ERROR row whose close was asked for: deleted once nothing runs any more. */
  lemma RecordInspected(q: State, t: TaskId, id: SessionId, row: Row, rest: seq<Found>, c: seq<Choice>)
    requires Next(q, t, id, row, rest) && row.state == Error && row.closeReason.Some? && Calm(c) && |c| >= 2
    requires |c| == if Vanished(c[1]) then 3 else 2
    ensures var q' := Turns(q, t, c);
      && RecordOver(q, q', t, id, if Vanished(c[1]) then None else Some(row), rest)
      && Holds(q, q', id, c[1].closed)
  {
    hide Turns, Apply, Said, Busy, RecordOver, Holds;
    if Vanished(c[1]) {
      assert c == [c[0]] + ([c[1]] + [c[2]]);
      InspectsGone(q, t, id, row, rest, c[0], c[1], c[2]);
    } else {
      assert c == [c[0]] + ([c[1]] + []);
      InspectsStays(q, t, id, row, rest, c[0], c[1]);
    }
  }

  lemma InspectsGone(
    q: State, t: TaskId, id: SessionId, row: Row, rest: seq<Found>, c0: Choice, c1: Choice, c2: Choice)
    requires Next(q, t, id, row, rest) && row.state == Error && row.closeReason.Some? && Vanished(c1)
    ensures var q' := Turns(q, t, [c0] + ([c1] + [c2])); RecordOver(q, q', t, id, None, rest) && Holds(q, q', id, true)
  {
    hide Turns, Apply, Said, Busy, RecordOver, Holds;
    InspectsTurn(q, t, id, row.alias, rest, q.next, c1);
    InspectsAlone(q, t, id, row, rest, c0, c1, [c2]);
    InspectedGone(q, t, id, row.alias, rest, q.log + Said(id, q.next, c1) + [Deleted(q.next, id, false)], c2);
  }

  lemma InspectsStays(q: State, t: TaskId, id: SessionId, row: Row, rest: seq<Found>, c0: Choice, c1: Choice)
    requires Next(q, t, id, row, rest) && row.state == Error && row.closeReason.Some? && !Vanished(c1)
    ensures var q' := Turns(q, t, [c0] + ([c1] + []));
      RecordOver(q, q', t, id, Some(row), rest) && Holds(q, q', id, c1.closed)
  {
    hide Turns, Apply, Said, Busy, RecordOver, Holds;
    InspectsTurn(q, t, id, row.alias, rest, q.next, c1);
    InspectsAlone(q, t, id, row, rest, c0, c1, []);
    InspectedStays(q, t, id, row, rest, c1);
  }

  lemma BusyInspects(q: State, t: TaskId, id: SessionId, alias: Alias, rest: seq<Found>)
    ensures var task := RecoverInspect(alias, id, q.next, rest);
      Held(q, t, id, alias).(tasks := q.tasks[t := task], next := q.next + 1)
        == Busy(q, t, id, alias, task, q.rows, q.tunnels, q.log, q.next + 1)
  {
  }

  lemma InspectedGone(q: State, t: TaskId, id: SessionId, alias: Alias, rest: seq<Found>, log: seq<Act>, c: Choice)
    requires alias !in q.locks
    ensures
      var last := RecoverDelete(alias, id, rest);
      var q' := Turns(Busy(q, t, id, alias, last, q.rows - {id}, q.tunnels, log, q.next + 1), t, [c]);
      RecordOver(q, q', t, id, None, rest) && Holds(q, q', id, true)
  {
    hide Turns, Apply;
    var last := RecoverDelete(alias, id, rest);
    var s := Busy(q, t, id, alias, last, q.rows - {id}, q.tunnels, log, q.next + 1);
    assert [c] == [c] + [];
    FirstTurn(s, t, c, []);
    ReleasesSlot(s, t, id, alias, rest, c);
    NoMoreTurns(s.(tasks := s.tasks[t := RecoverNext(rest)], locks := s.locks - {alias}, owned := q.owned - {id}), t);
    OverBy(q, s, t, id, alias, last, last, rest);
  }

  lemma InspectedStays(q: State, t: TaskId, id: SessionId, row: Row, rest: seq<Found>, c: Choice)
    requires id in q.rows && q.rows[id] == row && id !in q.tunnels
    ensures
      var s := Busy(q, t, id, row.alias, RecoverNext(rest), q.rows, Kept(q.tunnels, id, c.closed, q.next + 1),
                    q.log + Said(id, q.next, c), if c.closed then q.next + 1 else q.next + 2).(locks := q.locks);
      RecordOver(q, Turns(s, t, []), t, id, Some(row), rest) && Holds(q, Turns(s, t, []), id, c.closed)
  {
    hide Turns, Said;
    var s := Busy(q, t, id, row.alias, RecoverNext(rest), q.rows, Kept(q.tunnels, id, c.closed, q.next + 1),
                  q.log + Said(id, q.next, c), if c.closed then q.next + 1 else q.next + 2).(locks := q.locks);
    NoMoreTurns(s, t);
    assert q.rows[id := row] == q.rows;
    assert q.tunnels[id := q.next + 1] - {id} == q.tunnels;
  }

  lemma InspectsTurn(q: State, t: TaskId, id: SessionId, alias: Alias, rest: seq<Found>, op: nat, c: Choice)
    requires alias !in q.locks
    ensures
      var s := Busy(q, t, id, alias, RecoverInspect(alias, id, op, rest), q.rows, q.tunnels, q.log, op + 1);
      var log := q.log + Said(id, op, c);
      Apply(s, Turn(t, c))
        == if Vanished(c) then
             Busy(q, t, id, alias, RecoverDelete(alias, id, rest), q.rows - {id}, q.tunnels,
                  log + [Deleted(op, id, false)], op + 1)
           else
             Busy(q, t, id, alias, RecoverNext(rest), q.rows, Kept(q.tunnels, id, c.closed, op + 1), log,
                  if c.closed then op + 1 else op + 2).(locks := q.locks)
  {
    hide Apply, StepRecoverInspect, Busy, Said;
    InspectApplies(q, t, id, alias, rest, op, c);
    InspectsStep(q, t, id, alias, rest, op, c);
  }

  lemma InspectApplies(q: State, t: TaskId, id: SessionId, alias: Alias, rest: seq<Found>, op: nat, c: Choice)
    ensures
      var s := Busy(q, t, id, alias, RecoverInspect(alias, id, op, rest), q.rows, q.tunnels, q.log, op + 1);
      Apply(s, Turn(t, c)) == StepRecoverInspect(s, t, alias, id, op, rest, c)
  {
    hide StepRecoverInspect;
  }

  lemma InspectsStep(q: State, t: TaskId, id: SessionId, alias: Alias, rest: seq<Found>, op: nat, c: Choice)
    requires alias !in q.locks
    ensures
      var s := Busy(q, t, id, alias, RecoverInspect(alias, id, op, rest), q.rows, q.tunnels, q.log, op + 1);
      var log := q.log + Said(id, op, c);
      StepRecoverInspect(s, t, alias, id, op, rest, c)
        == if Vanished(c) then
             Busy(q, t, id, alias, RecoverDelete(alias, id, rest), q.rows - {id}, q.tunnels,
                  log + [Deleted(op, id, false)], op + 1)
           else
             Busy(q, t, id, alias, RecoverNext(rest), q.rows, Kept(q.tunnels, id, c.closed, op + 1), log,
                  if c.closed then op + 1 else op + 2).(locks := q.locks)
  {
    var task := RecoverInspect(alias, id, op, rest);
    SameTwice(q, t, task, RecoverDelete(alias, id, rest));
    SameTwice(q, t, task, RecoverNext(rest));
    assert q.locks[alias := t] - {alias} == q.locks && q.log + [] == q.log;
  }

  // ---- all of it ---------------------------------------------------------------

  /** What recovering a record leaves of its row: nothing, the row published, or an error. Which answers decide
      depends on where they are asked: the third and fourth of a STOPPING row, else the second. */
  ghost function RecoveredRow(row: Row, c: seq<Choice>): Option<Row>
    requires |c| == 7
  {
    if row.state == Stopping then
      var told := ToldBy(row, false, false, c[2], c[3]);
      if told.deletes then None else Some(FailedRow(row, told.absent, false, true))
    else if row.closeReason.Some? then (if Vanished(c[1]) then None else Some(row))
    else if !AttemptFails(row, c[1]) then Some(Recovered(row, c[1]))
    else if Vanished(c[1]) then
      if row.state != Ready then None
      else Some(row.(state := Error, errorCode := Some(RecoveryFailed), identity := NO_IDENTITY, localPort := None))
    else if row.state != Error || (c[1].closed && Why(row, c[1]).Some?) then
      Some(row.(state := Error, errorCode := Some(RecoveryFailed), localPort := None))
    else Some(row.(localPort := None))
  }

  /** Served alone, every record ends as the operation on it says, with its lock free and the list one shorter. */
  lemma RecordAlone(q: State, t: TaskId, id: SessionId, row: Row, rest: seq<Found>, c: seq<Choice>) returns (n: nat)
    requires Next(q, t, id, row, rest) && |c| == 7 && Calm(c)
    ensures n <= 7 && RecordOver(q, Turns(q, t, c[..n]), t, id, RecoveredRow(row, c), rest)
  {
    hide Turns, RecordOver, Next, ToldBy, FailedRow, Confirms, Why;
    ReasonsOf(q, t, id, row, rest);
    if row.state == Stopping {
      n := 7;
      assert c[..7] == c;
      RecordStopping(q, t, id, row, rest, c);
    } else if row.closeReason.Some? {
      n := if Vanished(c[1]) then 3 else 2;
      RecordInspected(q, t, id, row, rest, c[..n]);
    } else if !AttemptFails(row, c[1]) {
      n := 4;
      RecordPublished(q, t, id, row, rest, c[..4]);
    } else if Vanished(c[1]) && row.state != Ready {
      n := 3;
      RecordGone(q, t, id, row, rest, c[..3]);
    } else if Vanished(c[1]) {
      n := 4;
      RecordCleared(q, t, id, row, rest, c[..4]);
    } else if row.state != Error || (c[1].closed && Why(row, c[1]).Some?) {
      n := 3;
      RecordMarked(q, t, id, row, rest, c[..3]);
    } else {
      n := 2;
      RecordLeft(q, t, id, row, rest, c[..2]);
    }
  }

  lemma ReasonsOf(q: State, t: TaskId, id: SessionId, row: Row, rest: seq<Found>)
    requires Next(q, t, id, row, rest)
    ensures row.state != Stopping ==> (CanReattach(row) <==> row.closeReason == None)
    ensures row.closeReason.Some? ==> row.state == Stopping || row.state == Error
  {
  }
}
