/** Retry requests served alone. */
module LifecycleRetryAlone {
  import opened Wrappers
  import opened Records
  import opened Database
  import opened Lifecycle
  import opened LifecycleInvariant
  import opened LifecycleEffects
  import opened LifecycleTurns
  import opened LifecycleCloseAlone
  import opened LifecycleRecoverAlone

  /** A retry of session `id` on its way, holding the alias's lock. */
  ghost function Trying(q: State, alias: Alias, id: SessionId, task: Task, rows: Table, next: nat): State {
    q.(tasks := q.tasks[q.next := task], locks := q.locks[alias := q.next], timers := q.timers - {id},
       registry := q.registry - {id}, rows := rows, next := next)
  }

  ghost function Reading(q: State, alias: Alias, seen: Option<Found>): State {
    q.(tasks := q.tasks[q.next := RetryRead(alias, seen)], locks := q.locks[alias := q.next], next := q.next + 1)
  }

  ghost function SeenBy(q: State, alias: Alias): Option<Found> {
    var found := FindByAlias(q.rows, alias);
    if found.Some? then Some(Found(found.value, q.rows[found.value])) else None
  }

  lemma AskTurn(q: State, alias: Alias, c: Choice)
    requires Idle(q, alias) && !c.cancelled
    ensures Apply(Apply(q, CallRetry(alias)), Turn(q.next, c)) == Reading(q, alias, SeenBy(q, alias))
  {
    hide FindByAlias, StepRetryLock;
    var s := q.(tasks := q.tasks[q.next := RetryLock(alias)], next := q.next + 1);
    assert Apply(q, CallRetry(alias)) == s;
    assert Apply(s, Turn(q.next, c)) == StepRetryLock(s, q.next, alias, c);
    LockStep(q, s, alias, c);
  }

  lemma LockStep(q: State, s: State, alias: Alias, c: Choice)
    requires Idle(q, alias) && !c.cancelled && s == q.(tasks := q.tasks[q.next := RetryLock(alias)], next := q.next + 1)
    ensures StepRetryLock(s, q.next, alias, c) == Reading(q, alias, SeenBy(q, alias))
  {
    hide FindByAlias;
    SameTwice(q, q.next, RetryLock(alias), RetryRead(alias, SeenBy(q, alias)));
  }

  lemma Frees(q: State, alias: Alias, task: Task)
    requires Idle(q, alias)
    ensures q.tasks[q.next := task] - {q.next} == q.tasks && q.locks[alias := q.next] - {alias} == q.locks
  {
  }

  /** No session, or one that is not an error: refused. */
  lemma RetryRefused(q: State, alias: Alias, c0: Choice, c1: Choice)
    requires Idle(q, alias) && !c0.cancelled && !c1.cancelled
    requires var seen := SeenBy(q, alias); seen.None? || seen.value.row.state != Error
    ensures Turns(Apply(q, CallRetry(alias)), q.next, [c0] + ([c1] + [])) == q.(next := q.next + 1)
  {
    hide Turns, Apply, SeenBy, Reading, Idle;
    FirstTurn(Apply(q, CallRetry(alias)), q.next, c0, [c1] + []);
    AskTurn(q, alias, c0);
    FirstTurn(Reading(q, alias, SeenBy(q, alias)), q.next, c1, []);
    ReadingRefuses(q, alias, SeenBy(q, alias), c1);
    NoMoreTurns(q.(next := q.next + 1), q.next);
  }

  lemma ReadingRefuses(q: State, alias: Alias, seen: Option<Found>, c: Choice)
    requires Idle(q, alias) && (seen.None? || seen.value.row.state != Error)
    ensures Apply(Reading(q, alias, seen), Turn(q.next, c)) == q.(next := q.next + 1)
  {
    hide Apply;
    RefusesTurn(Reading(q, alias, seen), q.next, alias, seen, c);
    Frees(q, alias, RetryRead(alias, seen));
  }

  lemma RefusesTurn(q: State, t: TaskId, alias: Alias, seen: Option<Found>, c: Choice)
    requires Works(q, t, RetryRead(alias, seen)) && (seen.None? || seen.value.row.state != Error)
    ensures Apply(q, Turn(t, c)) == q.(tasks := q.tasks - {t}, locks := q.locks - {alias})
  {
    hide StartRetry;
  }

  /** The alias's session is an error with nothing of it held. */
  ghost predicate Retriable(q: State, alias: Alias, id: SessionId, row: Row) {
    && Idle(q, alias) && SeenBy(q, alias) == Some(Found(id, row)) && id in q.rows && q.rows[id] == row
    && row.state == Error && id !in q.starts && id !in q.tunnels
  }

  /** The retry looks for the process first. */
  predicate Reattaches(row: Row) {
    row.closeReason == None && !CanCloseWithoutInspection(row)
  }

  lemma BeginsTurn(q: State, alias: Alias, id: SessionId, row: Row, c: Choice)
    requires Retriable(q, alias, id, row) && !c.cancelled
    ensures
      Apply(Reading(q, alias, Some(Found(id, row))), Turn(q.next, c))
        == if Reattaches(row) then
             Trying(q, alias, id, Attach(alias, ByRetry, id, row, q.next + 1, AttachBegin(true)),
                    q.rows[id := row.(localPort := None)], q.next + 2)
           else Trying(q, alias, id, Shut(alias, Retrying, id, q.next + 1, ShutRead(Some(row))), q.rows, q.next + 2)
  {
    hide StepRetryRead, CanCloseWithoutInspection;
    var s := Reading(q, alias, Some(Found(id, row)));
    assert Apply(s, Turn(q.next, c)) == StepRetryRead(s, q.next, alias, Some(Found(id, row)), c);
    BeginsStep(q, alias, id, row, c);
  }

  lemma BeginsStep(q: State, alias: Alias, id: SessionId, row: Row, c: Choice)
    requires Retriable(q, alias, id, row) && !c.cancelled
    ensures
      StepRetryRead(Reading(q, alias, Some(Found(id, row))), q.next, alias, Some(Found(id, row)), c)
        == if Reattaches(row) then
             Trying(q, alias, id, Attach(alias, ByRetry, id, row, q.next + 1, AttachBegin(true)),
                    q.rows[id := row.(localPort := None)], q.next + 2)
           else Trying(q, alias, id, Shut(alias, Retrying, id, q.next + 1, ShutRead(Some(row))), q.rows, q.next + 2)
  {
    hide StartRetry;
    BeginsRetry(q, alias, id, row, c);
  }

  lemma BeginsRetry(q: State, alias: Alias, id: SessionId, row: Row, c: Choice)
    requires Retriable(q, alias, id, row)
    ensures
      StartRetry(Reading(q, alias, Some(Found(id, row))), q.next, alias, id, row, c)
        == if Reattaches(row) then
             Trying(q, alias, id, Attach(alias, ByRetry, id, row, q.next + 1, AttachBegin(true)),
                    q.rows[id := row.(localPort := None)], q.next + 2)
           else Trying(q, alias, id, Shut(alias, Retrying, id, q.next + 1, ShutRead(Some(row))), q.rows, q.next + 2)
  {
    hide CanCloseWithoutInspection, StartAttach, StartShut, Trying;
    var first := RetryRead(alias, Some(Found(id, row)));
    var s := Trying(q, alias, id, first, q.rows, q.next + 1);
    TryingFields(q, alias, id, first, q.rows, q.next + 1);
    if Reattaches(row) {
      var task := Attach(alias, ByRetry, id, row, q.next + 1, AttachBegin(true));
      BeginsReattach(s, q.next, alias, id, row, c);
      TryingGoesOn(q, alias, id, first, task, q.rows[id := row.(localPort := None)]);
    } else {
      BeginsShut(s, q.next, alias, id, row);
      TryingGoesOn(q, alias, id, first, Shut(alias, Retrying, id, q.next + 1, ShutRead(Some(row))), q.rows);
    }
  }

  lemma TryingFields(q: State, alias: Alias, id: SessionId, task: Task, rows: Table, next: nat)
    ensures var s := Trying(q, alias, id, task, rows, next);
      s.rows == rows && s.next == next && s.tunnels == q.tunnels && s.tasks == q.tasks[q.next := task]
    ensures forall seen ::
      var s := Reading(q, alias, seen);
      s.(timers := s.timers - {id}, registry := s.registry - {id})
        == Trying(q, alias, id, RetryRead(alias, seen), q.rows, q.next + 1)
  {
  }

  lemma TryingGoesOn(q: State, alias: Alias, id: SessionId, first: Task, task: Task, rows: Table)
    ensures var s := Trying(q, alias, id, first, q.rows, q.next + 1);
      s.(tasks := s.tasks[q.next := task], rows := rows, next := s.next + 1)
        == Trying(q, alias, id, task, rows, q.next + 2)
    ensures var s := Trying(q, alias, id, first, q.rows, q.next + 1);
      s.(tasks := s.tasks[q.next := task], next := s.next + 1) == Trying(q, alias, id, task, q.rows, q.next + 2)
  {
    SameTwice(q, q.next, first, task);
  }

  lemma BeginsReattach(q: State, t: TaskId, alias: Alias, id: SessionId, row: Row, c: Choice)
    requires id in q.rows && q.rows[id] == row && id !in q.tunnels && Recoverable(q.rows, id)
    ensures StartAttach(q, t, alias, ByRetry, id, row, c)
         == q.(tasks := q.tasks[t := Attach(alias, ByRetry, id, row, q.next, AttachBegin(true))],
               rows := q.rows[id := row.(localPort := None)], next := q.next + 1)
  {
  }

  lemma BeginsShut(q: State, t: TaskId, alias: Alias, id: SessionId, row: Row)
    requires id in q.rows && q.rows[id] == row
    ensures StartShut(q, t, alias, Retrying, id)
         == q.(tasks := q.tasks[t := Shut(alias, Retrying, id, q.next, ShutRead(Some(row)))], next := q.next + 1)
  {
  }

  /** The first two turns of a retry that is not refused. */
  lemma RetryBegins(q: State, alias: Alias, id: SessionId, row: Row, c0: Choice, c1: Choice, more: seq<Choice>)
    requires Retriable(q, alias, id, row) && !c0.cancelled && !c1.cancelled
    ensures
      Turns(Apply(q, CallRetry(alias)), q.next, [c0] + ([c1] + more))
        == Turns(if Reattaches(row) then
                   Trying(q, alias, id, Attach(alias, ByRetry, id, row, q.next + 1, AttachBegin(true)),
                          q.rows[id := row.(localPort := None)], q.next + 2)
                 else
                   Trying(q, alias, id, Shut(alias, Retrying, id, q.next + 1, ShutRead(Some(row))), q.rows, q.next + 2),
                 q.next, more)
  {
    hide Turns, Apply, SeenBy, Trying, Reattaches, Reading;
    FirstTurn(Apply(q, CallRetry(alias)), q.next, c0, [c1] + more);
    AskTurn(q, alias, c0);
    FirstTurn(Reading(q, alias, Some(Found(id, row))), q.next, c1, more);
    BeginsTurn(q, alias, id, row, c1);
  }

  /** The request is over: no task or lock of it is left, and nothing of other sessions has changed. */
  ghost predicate RetryOver(q: State, q': State, id: SessionId, after: Row) {
    && q'.rows == q.rows[id := after] && q'.timers == q.timers - {id}
    && q'.tasks == q.tasks && q'.locks == q.locks && q'.owned == q.owned && q'.counts == q.counts
    && q'.opens == q.opens && q'.starts == q.starts && q'.names == q.names && q'.unacquired == q.unacquired
  }

  /** The session's own process is found and works: READY again. */
  lemma RetryResumes(q: State, alias: Alias, id: SessionId, row: Row, c: seq<Choice>)
    requires Retriable(q, alias, id, row) && Reattaches(row) && |c| == 5 && Calm(c)
    requires c[3].timely && c[4].timely
    requires c[2].connected && Confirms(c[2].inspection, row) && c[2].healthy
    ensures var q' := Turns(Apply(q, CallRetry(alias)), q.next, c);
      && RetryOver(q, q', id, Recovered(row, c[2]))
      && q'.tunnels == q.tunnels[id := q.next + 2] && q'.registry == q.registry[id := c[2].port]
  {
    hide Turns, Apply, Confirms, Trying, Reattaches, Retriable, Attached, Recovered;
    assert c == [c[0]] + ([c[1]] + ([c[2]] + ([c[3]] + ([c[4]] + []))));
    RetryBegins(q, alias, id, row, c[0], c[1], [c[2]] + ([c[3]] + ([c[4]] + [])));
    TryingAttach(q, alias, id, row);
    var task := Attach(alias, ByRetry, id, row, q.next + 1, AttachBegin(true));
    var s := Trying(q, alias, id, task, q.rows[id := row.(localPort := None)], q.next + 2);
    AttemptSucceeds(s, q.next, alias, ByRetry, id, row, q.next + 1, c[2], c[3], c[4], []);
    ResumedOver(q, alias, id, row, c[2], c[4]);
  }

  lemma TryingAttach(q: State, alias: Alias, id: SessionId, row: Row)
    requires Retriable(q, alias, id, row) && Reattaches(row)
    ensures
      var task := Attach(alias, ByRetry, id, row, q.next + 1, AttachBegin(true));
      var s := Trying(q, alias, id, task, q.rows[id := row.(localPort := None)], q.next + 2);
      Works(s, q.next, task) && Recoverable(s.rows, id) && id !in s.registry
  {
  }

  lemma ResumedOver(q: State, alias: Alias, id: SessionId, row: Row, c: Choice, last: Choice)
    requires Retriable(q, alias, id, row)
    ensures
      var first := Attach(alias, ByRetry, id, row, q.next + 1, AttachBegin(true));
      var task := Attach(alias, ByRetry, id, row, q.next + 1, AttachRead(true));
      var s := Trying(q, alias, id, first, q.rows[id := row.(localPort := None)], q.next + 2);
      var s2 := Tunnelled(s, id, c.port).(
        tasks := s.tasks[q.next := task], rows := s.rows[id := Recovered(s.rows[id], c)]);
      var q' := Turns(Attached(s2, q.next, alias, ByRetry, id, last), q.next, []);
      && RetryOver(q, q', id, Recovered(row, c))
      && q'.tunnels == q.tunnels[id := q.next + 2] && q'.registry == q.registry[id := c.port]
  {
    hide Turns, Recovered;
    var first := Attach(alias, ByRetry, id, row, q.next + 1, AttachBegin(true));
    var task := Attach(alias, ByRetry, id, row, q.next + 1, AttachRead(true));
    var s := Trying(q, alias, id, first, q.rows[id := row.(localPort := None)], q.next + 2);
    var s2 := Tunnelled(s, id, c.port).(
      tasks := s.tasks[q.next := task], rows := s.rows[id := Recovered(s.rows[id], c)]);
    SameTwice(q, q.next, first, task);
    Frees(q, alias, task);
    SameRecovered(row, c);
    NoMoreTurns(Attached(s2, q.next, alias, ByRetry, id, last), q.next);
    assert q.rows[id := row.(localPort := None)][id := Recovered(row, c)] == q.rows[id := Recovered(row, c)];
    assert (q.registry - {id})[id := c.port] == q.registry[id := c.port];
  }

  // ---- closing first -----------------------------------------------------------

  /** The retry closes the session: it fails with the row in ERROR, or goes on to open the alias again. */
  ghost predicate RetryClosed(
    q: State, s: State, q': State, alias: Alias, id: SessionId, row: Row, c1: Choice, c2: Choice)
  {
    var tunnel := id in s.tunnels;
    var told := ToldBy(row, tunnel, false, c1, c2);
    && q'.rows == (if told.deletes then q.rows - {id}
                   else q.rows[id := FailedRow(row, told.absent, tunnel, c2.drained)])
    && q'.tasks == (if told.deletes then q.tasks[q.next := OpenLock(alias)] else q.tasks)
    && (if told.keeps then id in q'.tunnels && q'.tunnels - {id} == q.tunnels - {id}
        else q'.tunnels == q.tunnels - {id})
    && q'.locks == q.locks && SlotsAfter(q, q', id, told.deletes)
  }

  /** A retry that is about to close: it holds the lock, and the timer and port are withdrawn. */
  ghost predicate AboutToClose(q: State, s: State, alias: Alias, id: SessionId, row: Row) {
    && s.rows == q.rows[id := row] && s.timers == q.timers - {id} && s.registry == q.registry - {id}
    && s.tunnels - {id} == q.tunnels - {id} && s.owned == q.owned && s.counts == q.counts
    && s.opens == q.opens && s.starts == q.starts && s.names == q.names && s.unacquired == q.unacquired
    && s.locks == q.locks[alias := q.next]
  }

  lemma ClosesAfter(
    q: State, s: State, alias: Alias, id: SessionId, row: Row, op: nat, c: seq<Choice>, last: Choice)
    requires Idle(q, alias) && AboutToClose(q, s, alias, id, row) && |c| == 6 && Calm(c) && !last.cancelled
    requires s.tasks == q.tasks[q.next := Shut(alias, Retrying, id, op, ShutRead(Some(row)))]
    ensures RetryClosed(q, s, Turns(Turns(s, q.next, c), q.next, [last] + []), alias, id, row, c[1], c[2])
  {
    hide Turns, Apply, ToldBy, FailedRow, ShutLeaves, RetryClosed, SlotsAfter;
    var t := q.next;
    var told := ToldBy(row, id in s.tunnels, false, c[1], c[2]);
    ShutAloneLeaves(s, t, alias, Retrying, id, op, row, c);
    var s1 := Turns(s, t, c);
    var check := RetryCheck(alias, told.deletes);
    SameTwice(q, t, Shut(alias, Retrying, id, op, ShutRead(Some(row))), check);
    FirstTurn(s1, t, last, []);
    CheckTurn(s1, t, alias, told.deletes, last);
    SameTwice(q, t, check, OpenLock(alias));
    Frees(q, alias, check);
    NoMoreTurns(Apply(s1, Turn(t, last)), t);
    ClosedOver(q, s, s1, Apply(s1, Turn(t, last)), alias, id, row, c[1], c[2]);
  }

  lemma CheckTurn(q: State, t: TaskId, alias: Alias, gone: bool, c: Choice)
    requires Works(q, t, RetryCheck(alias, gone)) && !c.cancelled
    ensures Apply(q, Turn(t, c))
         == q.(tasks := if gone then q.tasks[t := OpenLock(alias)] else q.tasks - {t}, locks := q.locks - {alias})
  {
  }

  lemma ClosedOver(
    q: State, s: State, s1: State, q': State, alias: Alias, id: SessionId, row: Row, c1: Choice, c2: Choice)
    requires AboutToClose(q, s, alias, id, row) && ShutLeaves(s, s1, q.next, id, row, false, c1, c2)
    requires q' == s1.(tasks := q'.tasks, locks := q.locks)
    requires q'.tasks == if ToldBy(row, id in s.tunnels, false, c1, c2).deletes then q.tasks[q.next := OpenLock(alias)]
                         else q.tasks
    ensures RetryClosed(q, s, q', alias, id, row, c1, c2)
  {
    hide ToldBy, FailedRow, SlotsAfter;
    SlotsAfterRetry(q, s, s1, q', alias, id, row, c1, c2);
    RowsAfterRetry(q, s, s1, alias, id, row, c1, c2);
    TunnelsAfterRetry(q, s, s1, alias, id, row, c1, c2);
    hide ShutLeaves, AboutToClose;
  }

  lemma RowsAfterRetry(q: State, s: State, s1: State, alias: Alias, id: SessionId, row: Row, c1: Choice, c2: Choice)
    requires AboutToClose(q, s, alias, id, row) && ShutLeaves(s, s1, q.next, id, row, false, c1, c2)
    ensures
      var told := ToldBy(row, id in s.tunnels, false, c1, c2);
      s1.rows == if told.deletes then q.rows - {id}
                 else q.rows[id := FailedRow(row, told.absent, id in s.tunnels, c2.drained)]
  {
    hide ToldBy, FailedRow;
    var failed := FailedRow(row, ToldBy(row, id in s.tunnels, false, c1, c2).absent, id in s.tunnels, c2.drained);
    assert q.rows[id := row][id := failed] == q.rows[id := failed] && q.rows[id := row] - {id} == q.rows - {id};
  }

  lemma TunnelsAfterRetry(q: State, s: State, s1: State, alias: Alias, id: SessionId, row: Row, c1: Choice, c2: Choice)
    requires AboutToClose(q, s, alias, id, row) && ShutLeaves(s, s1, q.next, id, row, false, c1, c2)
    ensures
      if ToldBy(row, id in s.tunnels, false, c1, c2).keeps then
        id in s1.tunnels && s1.tunnels - {id} == q.tunnels - {id}
      else s1.tunnels == q.tunnels - {id}
  {
    hide ToldBy, FailedRow;
    assert (s.tunnels - {id})[id := s.next] - {id} == s.tunnels - {id};
  }

  lemma SlotsAfterRetry(
    q: State, s: State, s1: State, q': State, alias: Alias, id: SessionId, row: Row, c1: Choice, c2: Choice)
    requires AboutToClose(q, s, alias, id, row) && ShutLeaves(s, s1, q.next, id, row, false, c1, c2)
    requires q' == s1.(tasks := q'.tasks, locks := q.locks)
    ensures SlotsAfter(q, q', id, ToldBy(row, id in s.tunnels, false, c1, c2).deletes)
  {
    hide ToldBy, FailedRow;
    assert q.registry - {id} - {id} == q.registry - {id};
  }

  /** A session whose close was asked for, or whose open never reached the helper, is closed at once. */
  lemma RetryCloses(q: State, alias: Alias, id: SessionId, row: Row, begin: seq<Choice>, c: seq<Choice>, last: Choice)
    requires Retriable(q, alias, id, row) && !Reattaches(row)
    requires |begin| == 2 && Calm(begin) && |c| == 6 && Calm(c) && !last.cancelled
    ensures
      var s := Turns(Apply(q, CallRetry(alias)), q.next, begin);
      RetryClosed(q, s, Turns(Turns(s, q.next, c), q.next, [last] + []), alias, id, row, c[1], c[2])
  {
    hide Turns, Apply, Reattaches, RetryClosed;
    assert begin == [begin[0]] + ([begin[1]] + []);
    RetryBegins(q, alias, id, row, begin[0], begin[1], []);
    var s := Trying(q, alias, id, Shut(alias, Retrying, id, q.next + 1, ShutRead(Some(row))), q.rows, q.next + 2);
    NoMoreTurns(s, q.next);
    assert q.rows[id := row] == q.rows;
    ClosesAfter(q, s, alias, id, row, q.next + 1, c, last);
  }

  // ---- an attempt that fails -----------------------------------------------------

  /** The state of a retry whose first attempt has failed. */
  ghost function Failed(q: State, alias: Alias, id: SessionId, row: Row, task: Task, c: Choice): State {
    Trying(q, alias, id, task, q.rows[id := row.(localPort := None)], if c.closed then q.next + 2 else q.next + 3).(
      tunnels := Kept(q.tunnels, id, c.closed, q.next + 2), log := q.log + Said(id, q.next + 1, c))
  }

  lemma RetryFails(
    q: State, alias: Alias, id: SessionId, row: Row, c0: Choice, c1: Choice, c2: Choice, more: seq<Choice>)
    requires Retriable(q, alias, id, row) && Reattaches(row) && !c0.cancelled && !c1.cancelled && !c2.cancelled
    requires AttemptFails(row, c2)
    ensures
      var task := Attach(alias, ByRetry, id, row, q.next + 1, AttachBegin(true));
      Turns(Apply(q, CallRetry(alias)), q.next, [c0] + ([c1] + ([c2] + more)))
        == Turns(AttachFailed(Failed(q, alias, id, row, task, c2), q.next, alias, ByRetry, id, row, q.next + 1,
                              if c2.closed then Why(row, c2) else None, c2), q.next, more)
  {
    hide Turns, Apply, Confirms, AttachFailed, StepAttach, Reattaches, Why, Said, Failed, Retain, Retriable;
    RetriableRow(q, alias, id, row);
    RetryBegins(q, alias, id, row, c0, c1, [c2] + more);
    var task := Attach(alias, ByRetry, id, row, q.next + 1, AttachBegin(true));
    var s := Trying(q, alias, id, task, q.rows[id := row.(localPort := None)], q.next + 2);
    FirstTurn(s, q.next, c2, more);
    AttachApplies(s, q.next, alias, ByRetry, id, row, q.next + 1, AttachBegin(true), c2);
    FailsTurn(s, q.next, alias, ByRetry, id, row, q.next + 1, c2);
    FailedBy(q, alias, id, row, task, c2);
  }

  lemma FailedBy(q: State, alias: Alias, id: SessionId, row: Row, task: Task, c: Choice)
    ensures
      var s := Trying(q, alias, id, task, q.rows[id := row.(localPort := None)], q.next + 2);
      Retain(s.(log := s.log + Said(id, q.next + 1, c)), id, c.closed) == Failed(q, alias, id, row, task, c)
  {
    hide Said;
  }

  lemma RetriableRow(q: State, alias: Alias, id: SessionId, row: Row)
    requires Retriable(q, alias, id, row)
    ensures Idle(q, alias) && id in q.rows && q.rows[id] == row
  {
  }

  /** Another process, or an incomplete or unconfirmed answer: refused, with nothing closed. */
  lemma RetryUnavailable(q: State, alias: Alias, id: SessionId, row: Row, c: seq<Choice>)
    requires Retriable(q, alias, id, row) && Reattaches(row) && |c| == 3 && Calm(c) && AttemptFails(row, c[2])
    requires c[2].closed && Why(row, c[2]).Some? && Why(row, c[2]) != Some(Absent)
    ensures var q' := Turns(Apply(q, CallRetry(alias)), q.next, c);
      RetryOver(q, q', id, row.(localPort := None)) && q'.tunnels == q.tunnels && q'.registry == q.registry - {id}
  {
    hide Turns, Apply, Confirms, Reattaches, Why, Said, AttemptFails;
    assert c == [c[0]] + ([c[1]] + ([c[2]] + []));
    RetryFails(q, alias, id, row, c[0], c[1], c[2], []);
    var task := Attach(alias, ByRetry, id, row, q.next + 1, AttachBegin(true));
    var s := Failed(q, alias, id, row, task, c[2]);
    Frees(q, alias, task);
    NoMoreTurns(Leave(s, q.next, alias), q.next);
  }

  /** A failure before the deadline: the retry sleeps and tries again. */
  lemma RetrySleeps(q: State, alias: Alias, id: SessionId, row: Row, c: seq<Choice>)
    requires Retriable(q, alias, id, row) && Reattaches(row) && |c| == 3 && Calm(c) && AttemptFails(row, c[2])
    requires (!c[2].closed || Why(row, c[2]).None?) && c[2].again
    ensures Turns(Apply(q, CallRetry(alias)), q.next, c)
         == Failed(q, alias, id, row, RetrySleep(alias, id, row), c[2])
  {
    hide Turns, Apply, Confirms, Reattaches, Why, Said, AttemptFails;
    assert c == [c[0]] + ([c[1]] + ([c[2]] + []));
    RetryFails(q, alias, id, row, c[0], c[1], c[2], []);
    var task := Attach(alias, ByRetry, id, row, q.next + 1, AttachBegin(true));
    SameTwice(q, q.next, task, RetrySleep(alias, id, row));
    NoMoreTurns(Failed(q, alias, id, row, RetrySleep(alias, id, row), c[2]), q.next);
  }

  lemma SleepTurn(q: State, t: TaskId, alias: Alias, id: SessionId, row: Row, c: Choice)
    requires Works(q, t, RetrySleep(alias, id, row)) && !c.cancelled && id !in q.tunnels && Recoverable(q.rows, id)
    ensures Apply(q, Turn(t, c))
         == q.(tasks := q.tasks[t := Attach(alias, ByRetry, id, row, q.next, AttachBegin(true))],
               rows := q.rows[id := q.rows[id].(localPort := None)], next := q.next + 1)
  {
    hide StepRetrySleep;
    assert Apply(q, Turn(t, c)) == StepRetrySleep(q, t, alias, id, row, c);
    SleepStep(q, t, alias, id, row, c);
  }

  lemma SleepStep(q: State, t: TaskId, alias: Alias, id: SessionId, row: Row, c: Choice)
    requires !c.cancelled && id !in q.tunnels && Recoverable(q.rows, id)
    ensures StepRetrySleep(q, t, alias, id, row, c)
         == q.(tasks := q.tasks[t := Attach(alias, ByRetry, id, row, q.next, AttachBegin(true))],
               rows := q.rows[id := q.rows[id].(localPort := None)], next := q.next + 1)
  {
  }

  /** The process is gone, or the deadline has passed after another failure: the session is closed. */
  lemma RetryClosesAfter(
    q: State, alias: Alias, id: SessionId, row: Row, begin: seq<Choice>, c: seq<Choice>, last: Choice)
    requires Retriable(q, alias, id, row) && Reattaches(row) && |begin| == 3 && Calm(begin)
    requires AttemptFails(row, begin[2])
    requires (begin[2].closed && Why(row, begin[2]) == Some(Absent))
             || ((!begin[2].closed || Why(row, begin[2]).None?) && !begin[2].again)
    requires |c| == 6 && Calm(c) && !last.cancelled
    ensures
      var s := Turns(Apply(q, CallRetry(alias)), q.next, begin);
      RetryClosed(q, s, Turns(Turns(s, q.next, c), q.next, [last] + []), alias, id, row.(localPort := None), c[1], c[2])
  {
    hide Turns, Apply, Confirms, Reattaches, Why, Said, AttemptFails, RetryClosed, FailedShut, AboutToClose, Retriable;
    RetryFailsForGood(q, alias, id, row, begin);
    RetriableRow(q, alias, id, row);
    var task := Attach(alias, ByRetry, id, row, q.next + 1, AttachBegin(true));
    var f := Failed(q, alias, id, row, task, begin[2]);
    FailedCloses(q, alias, id, row, task, begin[2]);
    ClosesAfter(q, FailedShut(q, alias, id, row, task, begin[2]), alias, id, row.(localPort := None), f.next, c, last);
  }

  /** The retry that has failed for good starts to close. */
  ghost function FailedShut(q: State, alias: Alias, id: SessionId, row: Row, task: Task, c: Choice): State {
    var f, row' := Failed(q, alias, id, row, task, c), row.(localPort := None);
    f.(tasks := q.tasks[q.next := Shut(alias, Retrying, id, f.next, ShutRead(Some(row')))], next := f.next + 1)
  }

  lemma RetryFailsForGood(q: State, alias: Alias, id: SessionId, row: Row, begin: seq<Choice>)
    requires Retriable(q, alias, id, row) && Reattaches(row) && |begin| == 3 && Calm(begin)
    requires AttemptFails(row, begin[2])
    requires (begin[2].closed && Why(row, begin[2]) == Some(Absent))
             || ((!begin[2].closed || Why(row, begin[2]).None?) && !begin[2].again)
    ensures
      var task := Attach(alias, ByRetry, id, row, q.next + 1, AttachBegin(true));
      Turns(Apply(q, CallRetry(alias)), q.next, begin) == FailedShut(q, alias, id, row, task, begin[2])
  {
    hide Turns, Apply, Confirms, Reattaches, Why, Said, AttemptFails, StartShut, Failed, FailedShut, Retriable;
    ThreeAnswers(begin);
    RetryFails(q, alias, id, row, begin[0], begin[1], begin[2], []);
    RetriableRow(q, alias, id, row);
    var task := Attach(alias, ByRetry, id, row, q.next + 1, AttachBegin(true));
    FailedCloses(q, alias, id, row, task, begin[2]);
    NoMoreTurns(FailedShut(q, alias, id, row, task, begin[2]), q.next);
  }

  lemma FailedCloses(q: State, alias: Alias, id: SessionId, row: Row, task: Task, c: Choice)
    requires id in q.rows
    ensures
      var f, row' := Failed(q, alias, id, row, task, c), row.(localPort := None);
      var s := FailedShut(q, alias, id, row, task, c);
      && StartShut(f, q.next, alias, Retrying, id) == s && AboutToClose(q, s, alias, id, row')
      && s.tasks == q.tasks[q.next := Shut(alias, Retrying, id, f.next, ShutRead(Some(row')))]
  {
    hide Said;
    var f, row' := Failed(q, alias, id, row, task, c), row.(localPort := None);
    SameTwice(q, q.next, task, Shut(alias, Retrying, id, f.next, ShutRead(Some(row'))));
    assert q.tunnels[id := q.next + 2] - {id} == q.tunnels - {id};
  }
}
