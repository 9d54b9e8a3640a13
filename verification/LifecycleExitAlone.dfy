/** A watcher that sees its tunnel's listener close, and what follows when nothing else takes a turn. */
module LifecycleExitAlone {
  import opened Wrappers
  import opened Records
  import opened Database
  import opened Lifecycle
  import opened LifecycleInvariant
  import opened LifecycleEffects
  import opened LifecycleTurns
  import opened LifecycleCloseAlone
  import opened LifecycleRecoverAlone

  /** The watched tunnel `k` of session `id` is down. */
  ghost predicate Down(q: State, alias: Alias, id: SessionId, k: nat) {
    && k in q.watched && q.watched[k] == id && id in q.names && q.names[id] == alias
    && alias !in q.locks && q.next !in q.tasks
  }

  lemma Frees(q: State, alias: Alias, task: Task)
    requires alias !in q.locks && q.next !in q.tasks
    ensures q.tasks[q.next := task] - {q.next} == q.tasks && q.locks[alias := q.next] - {alias} == q.locks
  {
  }

  lemma DownTurn(q: State, alias: Alias, id: SessionId, k: nat, c: Choice)
    requires Down(q, alias, id, k) && !c.cancelled
    ensures Apply(Apply(q, TunnelDown(k)), Turn(q.next, c))
         == if id in q.rows then q.(tasks := q.tasks[q.next := ExitLock(alias, id, k)], next := q.next + 1)
            else q.(next := q.next + 1)
  {
    hide Apply;
    var first := ExitRead(alias, id, k, id in q.rows);
    var s := q.(tasks := q.tasks[q.next := first], next := q.next + 1);
    DownSpawns(q, alias, id, k);
    ReadTurn(s, q.next, alias, id, k, id in q.rows, c);
    SameTwice(q, q.next, first, ExitLock(alias, id, k));
    Frees(q, alias, first);
  }

  lemma DownSpawns(q: State, alias: Alias, id: SessionId, k: nat)
    requires Down(q, alias, id, k)
    ensures Apply(q, TunnelDown(k))
         == q.(tasks := q.tasks[q.next := ExitRead(alias, id, k, id in q.rows)], next := q.next + 1)
  {
  }

  lemma ReadTurn(q: State, t: TaskId, alias: Alias, id: SessionId, k: nat, found: bool, c: Choice)
    requires Works(q, t, ExitRead(alias, id, k, found)) && !c.cancelled
    ensures Apply(q, Turn(t, c))
         == if found then q.(tasks := q.tasks[t := ExitLock(alias, id, k)]) else q.(tasks := q.tasks - {t})
  {
  }

  lemma LockTurn(q: State, t: TaskId, alias: Alias, id: SessionId, k: nat, c: Choice)
    requires Works(q, t, ExitLock(alias, id, k)) && !c.cancelled && alias !in q.locks
    ensures Apply(q, Turn(t, c))
         == q.(tasks := q.tasks[t := ExitCheck(alias, id, k, Lookup(q.rows, id))], locks := q.locks[alias := t])
  {
    hide Lookup;
  }

  lemma CheckTurn(q: State, t: TaskId, alias: Alias, id: SessionId, k: nat, latest: Option<Row>, c: Choice)
    requires Works(q, t, ExitCheck(alias, id, k, latest)) && !c.cancelled
    ensures Apply(q, Turn(t, c))
         == if Withdrawn(latest) || id !in q.tunnels || q.tunnels[id] != k then
              q.(tasks := q.tasks - {t}, locks := q.locks - {alias})
            else
              q.(tasks := q.tasks[t := ExitClosing(alias, id, k)], registry := q.registry - {id},
                 tunnels := q.tunnels - {id})
  {
    hide Withdrawn;
  }

  lemma ClosingTurn(q: State, t: TaskId, alias: Alias, id: SessionId, k: nat, c: Choice)
    requires Works(q, t, ExitClosing(alias, id, k)) && !c.cancelled
    ensures Apply(q, Turn(t, c))
         == q.(tasks := q.tasks[t := ExitWait(alias, id)], locks := q.locks - {alias},
               tunnels := if c.closed then q.tunnels else q.tunnels[id := k])
  {
  }

  lemma WaitTurn(q: State, t: TaskId, alias: Alias, id: SessionId, c: Choice)
    requires Works(q, t, ExitWait(alias, id)) && !c.cancelled && alias !in q.locks
    ensures Apply(q, Turn(t, c))
         == q.(tasks := q.tasks[t := ExitFresh(alias, id, Lookup(q.rows, id))], locks := q.locks[alias := t])
  {
    hide Lookup;
  }

  lemma FreshTurn(q: State, t: TaskId, alias: Alias, id: SessionId, row: Row, c: Choice)
    requires Works(q, t, ExitFresh(alias, id, Some(row))) && !c.cancelled && row.state != Stopping
    requires id in q.rows && q.rows[id] == row && row.closeReason == None && id !in q.tunnels
    ensures Apply(q, Turn(t, c))
         == q.(tasks := q.tasks[t := Attach(alias, ByExit, id, row, q.next, AttachBegin(true))],
               rows := q.rows[id := row.(localPort := None)], next := q.next + 1)
  {
    hide StepExitFresh;
    assert Apply(q, Turn(t, c)) == StepExitFresh(q, t, alias, id, Some(row), c);
    FreshStep(q, t, alias, id, row, c);
  }

  lemma FreshStep(q: State, t: TaskId, alias: Alias, id: SessionId, row: Row, c: Choice)
    requires !c.cancelled && row.state != Stopping
    requires id in q.rows && q.rows[id] == row && row.closeReason == None && id !in q.tunnels
    ensures StepExitFresh(q, t, alias, id, Some(row), c)
         == q.(tasks := q.tasks[t := Attach(alias, ByExit, id, row, q.next, AttachBegin(true))],
               rows := q.rows[id := row.(localPort := None)], next := q.next + 1)
  {
  }

  lemma GivesUpTurn(q: State, t: TaskId, alias: Alias, id: SessionId, c: Choice)
    requires Works(q, t, ExitGiveUp(alias, id)) && !c.cancelled && alias !in q.locks
    ensures Apply(q, Turn(t, c))
         == q.(tasks := q.tasks[t := ExitFinal(alias, id, Lookup(q.rows, id))], locks := q.locks[alias := t])
  {
    hide Lookup;
  }

  lemma FinalTurn(q: State, t: TaskId, alias: Alias, id: SessionId, row: Row, c: Choice)
    requires Works(q, t, ExitFinal(alias, id, Some(row))) && !c.cancelled && row.state != Stopping
    ensures Apply(q, Turn(t, c))
         == q.(tasks := q.tasks[t := ExitMark(alias, id)], rows := MarkError(q.rows, id, TunnelLost))
  {
    hide MarkError;
  }

  lemma MarkTurn(q: State, t: TaskId, alias: Alias, id: SessionId, c: Choice)
    requires Works(q, t, ExitMark(alias, id))
    ensures Apply(q, Turn(t, c)) == q.(tasks := q.tasks - {t}, locks := q.locks - {alias})
  {
  }

  // ---- nothing to do -------------------------------------------------------------

  /** A session that is gone is left alone. */
  lemma ExitOfGone(q: State, alias: Alias, id: SessionId, k: nat, c: Choice)
    requires Down(q, alias, id, k) && id !in q.rows && !c.cancelled
    ensures Turns(Apply(q, TunnelDown(k)), q.next, [c] + []) == q.(next := q.next + 1)
  {
    hide Turns, Apply;
    FirstTurn(Apply(q, TunnelDown(k)), q.next, c, []);
    DownTurn(q, alias, id, k, c);
    NoMoreTurns(q.(next := q.next + 1), q.next);
  }

  /** The first two turns: the lock is taken and the row read. */
  lemma ExitChecks(q: State, alias: Alias, id: SessionId, k: nat, c0: Choice, c1: Choice, more: seq<Choice>)
    requires Down(q, alias, id, k) && id in q.rows && !c0.cancelled && !c1.cancelled
    ensures
      var s := q.(tasks := q.tasks[q.next := ExitCheck(alias, id, k, Some(q.rows[id]))],
                  locks := q.locks[alias := q.next], next := q.next + 1);
      Turns(Apply(q, TunnelDown(k)), q.next, [c0] + ([c1] + more)) == Turns(s, q.next, more)
  {
    hide Turns, Apply;
    FirstTurn(Apply(q, TunnelDown(k)), q.next, c0, [c1] + more);
    DownTurn(q, alias, id, k, c0);
    var s := q.(tasks := q.tasks[q.next := ExitLock(alias, id, k)], next := q.next + 1);
    FirstTurn(s, q.next, c1, more);
    LockTurn(s, q.next, alias, id, k, c1);
    SameTwice(q, q.next, ExitLock(alias, id, k), ExitCheck(alias, id, k, Some(q.rows[id])));
  }

  /** So is one that is being closed, or whose tunnel is another by now. */
  lemma ExitOfOther(q: State, alias: Alias, id: SessionId, k: nat, c0: Choice, c1: Choice, c2: Choice)
    requires Down(q, alias, id, k) && id in q.rows && !c0.cancelled && !c1.cancelled && !c2.cancelled
    requires q.rows[id].state == Stopping || id !in q.tunnels || q.tunnels[id] != k
    ensures Turns(Apply(q, TunnelDown(k)), q.next, [c0] + ([c1] + ([c2] + []))) == q.(next := q.next + 1)
  {
    hide Turns, Apply;
    ExitChecks(q, alias, id, k, c0, c1, [c2] + []);
    var task := ExitCheck(alias, id, k, Some(q.rows[id]));
    var s := q.(tasks := q.tasks[q.next := task], locks := q.locks[alias := q.next], next := q.next + 1);
    FirstTurn(s, q.next, c2, []);
    CheckTurn(s, q.next, alias, id, k, Some(q.rows[id]), c2);
    Frees(q, alias, task);
    NoMoreTurns(q.(next := q.next + 1), q.next);
  }

  // ---- reconnecting ----------------------------------------------------------------

  /** The tunnel is the session's own, and nobody closes the session. */
  ghost predicate Lost(q: State, alias: Alias, id: SessionId, k: nat, row: Row) {
    && Down(q, alias, id, k) && id in q.rows && q.rows[id] == row && row.state != Stopping && row.closeReason == None
    && id in q.tunnels && q.tunnels[id] == k
  }

  /** The exit on its way: the lost tunnel and its port are withdrawn. */
  ghost function Exiting(
    q: State, id: SessionId, task: Task, rows: Table, locks: map<Alias, TaskId>, next: nat): State
  {
    q.(tasks := q.tasks[q.next := task], rows := rows, locks := locks, next := next,
       registry := q.registry - {id}, tunnels := q.tunnels - {id})
  }

  /** The turns up to the first attempt, when the lost chain closes. */
  lemma ExitBegins(q: State, alias: Alias, id: SessionId, k: nat, row: Row, c: seq<Choice>, more: seq<Choice>)
    requires Lost(q, alias, id, k, row) && |c| == 6 && Calm(c) && c[3].closed
    ensures
      var task := Attach(alias, ByExit, id, row, q.next + 1, AttachBegin(true));
      Turns(Apply(q, TunnelDown(k)), q.next, [c[0]] + ([c[1]] + ([c[2]] + ([c[3]] + ([c[4]] + ([c[5]] + more))))))
        == Turns(Exiting(q, id, task, q.rows[id := row.(localPort := None)], q.locks[alias := q.next], q.next + 2),
                 q.next, more)
  {
    hide Turns, Apply;
    var t := q.next;
    ExitChecks(q, alias, id, k, c[0], c[1], [c[2]] + ([c[3]] + ([c[4]] + ([c[5]] + more))));
    var check := ExitCheck(alias, id, k, Some(row));
    var s := q.(tasks := q.tasks[t := check], locks := q.locks[alias := t], next := t + 1);
    FirstTurn(s, t, c[2], [c[3]] + ([c[4]] + ([c[5]] + more)));
    CheckTurn(s, t, alias, id, k, Some(row), c[2]);
    var closing := ExitClosing(alias, id, k);
    SameTwice(q, t, check, closing);
    ExitCloses(q, alias, id, k, row, c[3], c[4], c[5], more);
  }

  lemma ExitCloses(
    q: State, alias: Alias, id: SessionId, k: nat, row: Row, c3: Choice, c4: Choice, c5: Choice, more: seq<Choice>)
    requires Lost(q, alias, id, k, row) && !c3.cancelled && !c4.cancelled && !c5.cancelled && c3.closed
    ensures
      var task := Attach(alias, ByExit, id, row, q.next + 1, AttachBegin(true));
      var s := Exiting(q, id, ExitClosing(alias, id, k), q.rows, q.locks[alias := q.next], q.next + 1);
      Turns(s, q.next, [c3] + ([c4] + ([c5] + more)))
        == Turns(Exiting(q, id, task, q.rows[id := row.(localPort := None)], q.locks[alias := q.next], q.next + 2),
                 q.next, more)
  {
    hide Turns, Apply, Exiting;
    var t, task := q.next, Attach(alias, ByExit, id, row, q.next + 1, AttachBegin(true));
    var waiting, reading := ExitWait(alias, id), ExitFresh(alias, id, Some(row));
    var s := Exiting(q, id, ExitClosing(alias, id, k), q.rows, q.locks[alias := t], t + 1);
    FirstTurn(s, t, c3, [c4] + ([c5] + more));
    ExitUnlocks(q, alias, id, k, c3);
    var s1 := Exiting(q, id, waiting, q.rows, q.locks, t + 1);
    FirstTurn(s1, t, c4, [c5] + more);
    ExitRelocks(q, alias, id, row, c4);
    var s2 := Exiting(q, id, reading, q.rows, q.locks[alias := t], t + 1);
    FirstTurn(s2, t, c5, more);
    ExitReads(q, alias, id, row, c5);
  }

  lemma ExitRelocks(q: State, alias: Alias, id: SessionId, row: Row, c: Choice)
    requires alias !in q.locks && !c.cancelled && id in q.rows && q.rows[id] == row
    ensures Apply(Exiting(q, id, ExitWait(alias, id), q.rows, q.locks, q.next + 1), Turn(q.next, c))
         == Exiting(q, id, ExitFresh(alias, id, Some(row)), q.rows, q.locks[alias := q.next], q.next + 1)
  {
    hide Apply;
    WaitTurn(Exiting(q, id, ExitWait(alias, id), q.rows, q.locks, q.next + 1), q.next, alias, id, c);
    SameTwice(q, q.next, ExitWait(alias, id), ExitFresh(alias, id, Some(row)));
  }

  lemma ExitReads(q: State, alias: Alias, id: SessionId, row: Row, c: Choice)
    requires !c.cancelled && id in q.rows && q.rows[id] == row && row.state != Stopping && row.closeReason == None
    ensures
      var task := Attach(alias, ByExit, id, row, q.next + 1, AttachBegin(true));
      var locks := q.locks[alias := q.next];
      Apply(Exiting(q, id, ExitFresh(alias, id, Some(row)), q.rows, locks, q.next + 1), Turn(q.next, c))
        == Exiting(q, id, task, q.rows[id := row.(localPort := None)], locks, q.next + 2)
  {
    hide Apply;
    var reading, locks := ExitFresh(alias, id, Some(row)), q.locks[alias := q.next];
    FreshTurn(Exiting(q, id, reading, q.rows, locks, q.next + 1), q.next, alias, id, row, c);
    SameTwice(q, q.next, reading, Attach(alias, ByExit, id, row, q.next + 1, AttachBegin(true)));
  }

  lemma ExitUnlocks(q: State, alias: Alias, id: SessionId, k: nat, c: Choice)
    requires alias !in q.locks && q.next !in q.tasks && !c.cancelled && c.closed
    ensures
      Apply(Exiting(q, id, ExitClosing(alias, id, k), q.rows, q.locks[alias := q.next], q.next + 1), Turn(q.next, c))
        == Exiting(q, id, ExitWait(alias, id), q.rows, q.locks, q.next + 1)
  {
    hide Apply;
    var closing := ExitClosing(alias, id, k);
    ClosingTurn(Exiting(q, id, closing, q.rows, q.locks[alias := q.next], q.next + 1), q.next, alias, id, k, c);
    SameTwice(q, q.next, closing, ExitWait(alias, id));
    Frees(q, alias, closing);
  }

  /** The exit is over, and nothing of other sessions has changed. */
  ghost predicate ExitOver(q: State, q': State, id: SessionId, after: Row) {
    && q'.rows == q.rows[id := after] && q'.tasks == q.tasks && q'.locks == q.locks
    && q'.owned == q.owned && q'.counts == q.counts && q'.timers == q.timers && q'.opens == q.opens
    && q'.starts == q.starts && q'.names == q.names && q'.unacquired == q.unacquired
  }

  /** The session's own process is found and works: READY with a tunnel and port of its own again. */
  lemma ExitReconnects(q: State, alias: Alias, id: SessionId, k: nat, row: Row, c: seq<Choice>, d: seq<Choice>)
    requires Lost(q, alias, id, k, row) && |c| == 6 && Calm(c) && c[3].closed && |d| == 3 && Calm(d)
    requires d[0].connected && Confirms(d[0].inspection, row) && d[0].healthy && d[1].timely && d[2].timely
    ensures
      var q' := Turns(Apply(q, TunnelDown(k)), q.next, c + d);
      && ExitOver(q, q', id, Recovered(row, d[0]))
      && q'.tunnels == q.tunnels[id := q.next + 2] && q'.registry == q.registry[id := d[0].port]
  {
    hide Turns, Apply, Confirms, Attached, Recovered, Exiting, ExitOver, Tunnelled;
    assert !d[0].cancelled && !d[1].cancelled && !d[2].cancelled;
    var last := [d[0]] + ([d[1]] + ([d[2]] + []));
    ThreeAnswers(d);
    SixAnswers(c, last);
    ExitBegins(q, alias, id, k, row, c, last);
    ExitSucceeds(q, alias, id, row, d[0], d[1], d[2]);
  }

  lemma ExitSucceeds(q: State, alias: Alias, id: SessionId, row: Row, d0: Choice, d1: Choice, d2: Choice)
    requires alias !in q.locks && q.next !in q.tasks && id in q.rows && q.rows[id] == row
    requires row.state != Stopping && row.closeReason == None
    requires !d0.cancelled && !d1.cancelled && !d2.cancelled && d1.timely && d2.timely
    requires d0.connected && Confirms(d0.inspection, row) && d0.healthy
    ensures
      var task := Attach(alias, ByExit, id, row, q.next + 1, AttachBegin(true));
      var s := Exiting(q, id, task, q.rows[id := row.(localPort := None)], q.locks[alias := q.next], q.next + 2);
      var q' := Turns(s, q.next, [d0] + ([d1] + ([d2] + [])));
      && ExitOver(q, q', id, Recovered(row, d0))
      && q'.tunnels == q.tunnels[id := q.next + 2] && q'.registry == q.registry[id := d0.port]
  {
    hide Turns, Apply, Confirms, Attached, Recovered, Exiting, ExitOver, Tunnelled;
    var task := Attach(alias, ByExit, id, row, q.next + 1, AttachBegin(true));
    var s := Exiting(q, id, task, q.rows[id := row.(localPort := None)], q.locks[alias := q.next], q.next + 2);
    ExitingFields(q, alias, id, row);
    AttemptSucceeds(s, q.next, alias, ByExit, id, row, q.next + 1, d0, d1, d2, []);
    ReconnectedOver(q, alias, id, row, d0, d2);
  }

  lemma ExitingFields(q: State, alias: Alias, id: SessionId, row: Row)
    requires row.state != Stopping && row.closeReason == None
    ensures
      var task := Attach(alias, ByExit, id, row, q.next + 1, AttachBegin(true));
      var s := Exiting(q, id, task, q.rows[id := row.(localPort := None)], q.locks[alias := q.next], q.next + 2);
      Works(s, q.next, task) && Recoverable(s.rows, id) && id !in s.registry
  {
  }

  lemma ReconnectedOver(q: State, alias: Alias, id: SessionId, row: Row, c: Choice, last: Choice)
    requires alias !in q.locks && q.next !in q.tasks && id in q.rows && q.rows[id] == row
    ensures
      var first := Attach(alias, ByExit, id, row, q.next + 1, AttachBegin(true));
      var task := Attach(alias, ByExit, id, row, q.next + 1, AttachRead(true));
      var s := Exiting(q, id, first, q.rows[id := row.(localPort := None)], q.locks[alias := q.next], q.next + 2);
      var s2 := Tunnelled(s, id, c.port).(
        tasks := s.tasks[q.next := task], rows := s.rows[id := Recovered(s.rows[id], c)]);
      var q' := Turns(Attached(s2, q.next, alias, ByExit, id, last), q.next, []);
      && ExitOver(q, q', id, Recovered(row, c))
      && q'.tunnels == q.tunnels[id := q.next + 2] && q'.registry == q.registry[id := c.port]
  {
    hide Turns, Recovered;
    var first := Attach(alias, ByExit, id, row, q.next + 1, AttachBegin(true));
    var task := Attach(alias, ByExit, id, row, q.next + 1, AttachRead(true));
    var s := Exiting(q, id, first, q.rows[id := row.(localPort := None)], q.locks[alias := q.next], q.next + 2);
    var s2 := Tunnelled(s, id, c.port).(
      tasks := s.tasks[q.next := task], rows := s.rows[id := Recovered(s.rows[id], c)]);
    SameTwice(q, q.next, first, task);
    Frees(q, alias, task);
    SameRecovered(row, c);
    NoMoreTurns(Attached(s2, q.next, alias, ByExit, id, last), q.next);
    assert q.rows[id := row.(localPort := None)][id := Recovered(row, c)] == q.rows[id := Recovered(row, c)];
    assert (q.registry - {id})[id := c.port] == q.registry[id := c.port];
    assert (q.tunnels - {id})[id := q.next + 2] == q.tunnels[id := q.next + 2];
  }

  // ---- giving up -------------------------------------------------------------------

  /** The state after an attempt that failed, outside the lock. */
  ghost function Missed(q: State, id: SessionId, row: Row, task: Task, c: Choice): State {
    var next := q.next + 2;
    Exiting(q, id, task, q.rows[id := row.(localPort := None)], q.locks, if c.closed then next else next + 1).(
      tunnels := Kept(q.tunnels - {id}, id, c.closed, next), log := q.log + Said(id, q.next + 1, c))
  }

  /** An attempt that fails: the task waits to try again, or gives up. */
  lemma ExitMisses(
    q: State, alias: Alias, id: SessionId, k: nat, row: Row, c: seq<Choice>, d: Choice, more: seq<Choice>)
    requires Lost(q, alias, id, k, row) && |c| == 6 && Calm(c) && c[3].closed && !d.cancelled && AttemptFails(row, d)
    ensures
      var again := (!d.closed || Why(row, d).None?) && d.again;
      Turns(Apply(q, TunnelDown(k)), q.next, c + ([d] + more))
        == Turns(Missed(q, id, row, if again then ExitWait(alias, id) else ExitGiveUp(alias, id), d), q.next, more)
  {
    hide Turns, Apply, Confirms, AttachFailed, StepAttach, Why, Said, AttemptFails;
    SixAnswers(c, [d] + more);
    ExitBegins(q, alias, id, k, row, c, [d] + more);
    var task := Attach(alias, ByExit, id, row, q.next + 1, AttachBegin(true));
    var s := Exiting(q, id, task, q.rows[id := row.(localPort := None)], q.locks[alias := q.next], q.next + 2);
    FirstTurn(s, q.next, d, more);
    AttachApplies(s, q.next, alias, ByExit, id, row, q.next + 1, AttachBegin(true), d);
    FailedAttempt(row, d);
    FailsTurn(s, q.next, alias, ByExit, id, row, q.next + 1, d);
    MissedBy(q, alias, id, row, task, d);
  }

  lemma FailedAttempt(row: Row, c: Choice)
    requires AttemptFails(row, c)
    ensures !(c.connected && Confirms(c.inspection, row) && c.healthy)
  {
  }

  lemma MissedBy(q: State, alias: Alias, id: SessionId, row: Row, task: Task, c: Choice)
    requires alias !in q.locks
    ensures
      var s := Exiting(q, id, task, q.rows[id := row.(localPort := None)], q.locks[alias := q.next], q.next + 2);
      var again := (!c.closed || Why(row, c).None?) && c.again;
      AttachFailed(Retain(s.(log := s.log + Said(id, q.next + 1, c)), id, c.closed), q.next, alias, ByExit, id, row,
                   q.next + 1, if c.closed then Why(row, c) else None, c)
        == Missed(q, id, row, if again then ExitWait(alias, id) else ExitGiveUp(alias, id), c)
  {
    hide Why, Said;
    SameTwice(q, q.next, task, ExitWait(alias, id));
    SameTwice(q, q.next, task, ExitGiveUp(alias, id));
    assert q.locks[alias := q.next] - {alias} == q.locks;
  }

  /** Another process, an absent one, or the deadline: TUNNEL_LOST, with no tunnel but a chain that did not close. */
  lemma ExitGivesUp(q: State, alias: Alias, id: SessionId, k: nat, row: Row, c: seq<Choice>, d: Choice, e: seq<Choice>)
    requires Lost(q, alias, id, k, row) && |c| == 6 && Calm(c) && c[3].closed && !d.cancelled && AttemptFails(row, d)
    requires (d.closed && Why(row, d).Some?) || !d.again
    requires |e| == 3 && Calm(e)
    ensures
      var q' := Turns(Apply(q, TunnelDown(k)), q.next, c + ([d] + ([e[0]] + ([e[1]] + ([e[2]] + [])))));
      && ExitOver(q, q', id, row.(state := Error, errorCode := Some(TunnelLost), localPort := None))
      && q'.registry == q.registry - {id}
      && q'.tunnels == (if d.closed then q.tunnels - {id} else q.tunnels[id := q.next + 2])
  {
    hide Turns, Apply, AttemptFails, Why, Missed, MarkError;
    var t := q.next;
    ExitMisses(q, alias, id, k, row, c, d, [e[0]] + ([e[1]] + ([e[2]] + [])));
    GivesUpAlone(q, alias, id, row, d, e);
  }

  lemma GivesUpAlone(q: State, alias: Alias, id: SessionId, row: Row, d: Choice, e: seq<Choice>)
    requires alias !in q.locks && q.next !in q.tasks && row.state != Stopping && |e| == 3 && Calm(e)
    ensures
      var q' := Turns(Missed(q, id, row, ExitGiveUp(alias, id), d), q.next, [e[0]] + ([e[1]] + ([e[2]] + [])));
      && ExitOver(q, q', id, row.(state := Error, errorCode := Some(TunnelLost), localPort := None))
      && q'.registry == q.registry - {id}
      && q'.tunnels == (if d.closed then q.tunnels - {id} else q.tunnels[id := q.next + 2])
  {
    hide Turns, Apply, MarkError, Said, Missed;
    GivesUpMarks(q, alias, id, row, d, e[0], e[1], [e[2]] + []);
    LostRows(q.rows, id, row);
    MarkedOver(q, alias, id, row, d, e[2]);
  }

  /** The state once TUNNEL_LOST is recorded. */
  ghost function Marked(q: State, alias: Alias, id: SessionId, row: Row, d: Choice): State {
    Missed(q, id, row, ExitMark(alias, id), d).(
      locks := q.locks[alias := q.next], rows := MarkError(q.rows[id := row.(localPort := None)], id, TunnelLost))
  }

  lemma MissedFields(q: State, id: SessionId, row: Row, task: Task, d: Choice, task': Task)
    ensures var s := Missed(q, id, row, task, d);
      && Works(s, q.next, task) && s.locks == q.locks && s.rows == q.rows[id := row.(localPort := None)]
      && s.tasks == q.tasks[q.next := task]
      && s.(tasks := s.tasks[q.next := task']) == Missed(q, id, row, task', d)
  {
    hide Said;
    SameTwice(q, q.next, task, task');
  }

  lemma GivesUpMarks(
    q: State, alias: Alias, id: SessionId, row: Row, d: Choice, e0: Choice, e1: Choice, more: seq<Choice>)
    requires alias !in q.locks && q.next !in q.tasks && row.state != Stopping && !e0.cancelled && !e1.cancelled
    ensures
      Turns(Missed(q, id, row, ExitGiveUp(alias, id), d), q.next, [e0] + ([e1] + more))
        == Turns(Marked(q, alias, id, row, d), q.next, more)
  {
    hide Turns, Apply, MarkError, Said, Missed;
    var t, row1 := q.next, row.(localPort := None);
    var task0, task1, task2 := ExitGiveUp(alias, id), ExitFinal(alias, id, Some(row1)), ExitMark(alias, id);
    MissedFields(q, id, row, task0, d, task1);
    FirstTurn(Missed(q, id, row, task0, d), t, e0, [e1] + more);
    GivesUpTurn(Missed(q, id, row, task0, d), t, alias, id, e0);
    MissedFields(q, id, row, task1, d, task2);
    var s1 := Missed(q, id, row, task1, d).(locks := q.locks[alias := t]);
    FirstTurn(s1, t, e1, more);
    FinalTurn(s1, t, alias, id, row1, e1);
  }

  lemma MarkedOver(q: State, alias: Alias, id: SessionId, row: Row, d: Choice, e: Choice)
    requires alias !in q.locks && q.next !in q.tasks
    ensures
      var q' := Turns(Marked(q, alias, id, row, d), q.next, [e] + []);
      && q'.rows == MarkError(q.rows[id := row.(localPort := None)], id, TunnelLost)
      && ExitOver(q, q'.(rows := q.rows[id := row]), id, row)
      && q'.registry == q.registry - {id}
      && q'.tunnels == (if d.closed then q.tunnels - {id} else q.tunnels[id := q.next + 2])
  {
    hide Turns, Apply, MarkError, Said;
    var t, s := q.next, Marked(q, alias, id, row, d);
    FirstTurn(s, t, e, []);
    MarkTurn(s, t, alias, id, e);
    Frees(q, alias, ExitMark(alias, id));
    NoMoreTurns(s.(tasks := q.tasks, locks := q.locks), t);
    assert (q.tunnels - {id})[id := t + 2] == q.tunnels[id := t + 2];
  }

  lemma LostRows(rows: Table, id: SessionId, row: Row)
    ensures MarkError(rows[id := row.(localPort := None)], id, TunnelLost)
         == rows[id := row.(state := Error, errorCode := Some(TunnelLost), localPort := None)]
  {
  }
}
