/** Opening requests served alone: refused without a trace, or one row, one slot and one start task more. */
module LifecycleOpenAlone {
  import opened Wrappers
  import opened Records
  import opened Database
  import opened Lifecycle
  import opened LifecycleTurns

  /** Requests are served, nobody holds the alias's lock, and the next number is free. */
  ghost predicate Quiet(q: State, alias: Alias) {
    q.recoverer.None? && alias !in q.locks && q.next !in q.tasks && q.next + 1 !in q.unacquired
  }

  /** The request on its way. */
  ghost function Asking(q: State, alias: Alias, task: Task): State {
    q.(tasks := q.tasks[q.next := task], locks := q.locks[alias := q.next], next := q.next + 1)
  }

  lemma AskTurn(q: State, alias: Alias, c: Choice)
    requires Quiet(q, alias) && !c.cancelled
    ensures Apply(Apply(q, CallOpen(alias)), Turn(q.next, c))
         == if c.listed then Asking(q, alias, OpenRead(alias, AliasTaken(q.rows, alias))) else q.(next := q.next + 1)
  {
    hide AliasTaken, StepOpenLock;
    var s := q.(tasks := q.tasks[q.next := OpenLock(alias)], next := q.next + 1);
    assert Apply(q, CallOpen(alias)) == s;
    assert Apply(s, Turn(q.next, c)) == StepOpenLock(s, q.next, alias, c);
    LockStep(q, s, alias, c);
  }

  lemma LockStep(q: State, s: State, alias: Alias, c: Choice)
    requires Quiet(q, alias) && !c.cancelled && s == q.(tasks := q.tasks[q.next := OpenLock(alias)], next := q.next + 1)
    ensures StepOpenLock(s, q.next, alias, c)
         == if c.listed then Asking(q, alias, OpenRead(alias, AliasTaken(q.rows, alias))) else q.(next := q.next + 1)
  {
    hide AliasTaken;
    assert q.tasks[q.next := OpenLock(alias)] - {q.next} == q.tasks;
    var task := OpenRead(alias, AliasTaken(q.rows, alias));
    assert q.tasks[q.next := OpenLock(alias)][q.next := task] == q.tasks[q.next := task];
  }

  lemma Withdraws(q: State, alias: Alias, task: Task)
    requires Quiet(q, alias)
    ensures Leave(Asking(q, alias, task), q.next, alias) == q.(next := q.next + 1)
  {
    assert q.tasks[q.next := task] - {q.next} == q.tasks && q.locks[alias := q.next] - {alias} == q.locks;
  }

  /** The row inserted under a new id. */
  ghost function Inserted(q: State, alias: Alias): State {
    var id := q.next + 1;
    Asking(q, alias, OpenInsert(alias, id)).(
      rows := Insert(q.rows, id, alias), names := q.names[id := alias], unacquired := q.unacquired + {id},
      next := id + 1)
  }

  lemma ReadTurn(q: State, alias: Alias, c: Choice)
    requires Quiet(q, alias) && !c.cancelled
    ensures
      var taken := AliasTaken(q.rows, alias);
      Apply(Asking(q, alias, OpenRead(alias, taken)), Turn(q.next, c))
        == if taken || Full(q) then q.(next := q.next + 1) else Inserted(q, alias)
  {
    hide AliasTaken, Full, StepOpenRead;
    var taken := AliasTaken(q.rows, alias);
    var s := Asking(q, alias, OpenRead(alias, taken));
    assert Apply(s, Turn(q.next, c)) == StepOpenRead(s, q.next, alias, taken, c);
    ReadStep(q, alias, c);
  }

  lemma ReadStep(q: State, alias: Alias, c: Choice)
    requires Quiet(q, alias) && !c.cancelled
    ensures
      var taken := AliasTaken(q.rows, alias);
      StepOpenRead(Asking(q, alias, OpenRead(alias, taken)), q.next, alias, taken, c)
        == if taken || Full(q) then q.(next := q.next + 1) else Inserted(q, alias)
  {
    hide AliasTaken, Insert;
    var taken := AliasTaken(q.rows, alias);
    var first, task := OpenRead(alias, taken), OpenInsert(alias, q.next + 1);
    Withdraws(q, alias, first);
    assert q.tasks[q.next := first][q.next := task] == q.tasks[q.next := task];
  }

  /** What an opening request leaves that starts: a new STARTING row, its slot, and its start task. */
  ghost function Opening(q: State, alias: Alias): State {
    var id := q.next + 1;
    q.(rows := q.rows[id := NewRow(alias)], names := q.names[id := alias], owned := q.owned + {id},
       starts := q.starts + {id},
       opens := q.opens[id := OpenTask(alias, Preparing, false, false, false, false, InternalError)], next := id + 1)
  }

  lemma TakesSlot(q: State, alias: Alias, c: Choice)
    requires Quiet(q, alias) && !c.cancelled && !Full(q)
    ensures Apply(Inserted(q, alias), Turn(q.next, c)) == Opening(q, alias)
  {
    hide StepOpenInsert;
    var s, id := Inserted(q, alias), q.next + 1;
    assert Apply(s, Turn(q.next, c)) == StepOpenInsert(s, q.next, alias, id, c);
    AcquireStep(q, alias, c);
  }

  lemma AcquireStep(q: State, alias: Alias, c: Choice)
    requires Quiet(q, alias) && !c.cancelled && !Full(q)
    ensures StepOpenInsert(Inserted(q, alias), q.next, alias, q.next + 1, c) == Opening(q, alias)
  {
    var task := OpenInsert(alias, q.next + 1);
    assert q.tasks[q.next := task] - {q.next} == q.tasks && q.locks[alias := q.next] - {alias} == q.locks;
    assert q.unacquired + {q.next + 1} - {q.next + 1} == q.unacquired;
  }

  /** An unlisted alias is refused. */
  lemma UnlistedRefused(q: State, alias: Alias, c: Choice)
    requires Quiet(q, alias) && !c.cancelled && !c.listed
    ensures Turns(Apply(q, CallOpen(alias)), q.next, [c]) == q.(next := q.next + 1)
  {
    hide Apply, Turns;
    assert [c] == [c] + [];
    FirstTurn(Apply(q, CallOpen(alias)), q.next, c, []);
    AskTurn(q, alias, c);
    NoMoreTurns(q.(next := q.next + 1), q.next);
  }

  /** So is an alias that has a session, or a new session beyond the capacity. */
  lemma TakenOrFullRefused(q: State, alias: Alias, c0: Choice, c1: Choice)
    requires Quiet(q, alias) && Calm([c0, c1]) && c0.listed && (AliasTaken(q.rows, alias) || Full(q))
    ensures Turns(Apply(q, CallOpen(alias)), q.next, [c0, c1]) == q.(next := q.next + 1)
  {
    hide Apply, Turns, AliasTaken, Full;
    assert !c0.cancelled && !c1.cancelled by { assert [c0, c1][0] == c0 && [c0, c1][1] == c1; }
    assert [c0, c1] == [c0] + ([c1] + []);
    FirstTurn(Apply(q, CallOpen(alias)), q.next, c0, [c1] + []);
    AskTurn(q, alias, c0);
    FirstTurn(Asking(q, alias, OpenRead(alias, AliasTaken(q.rows, alias))), q.next, c1, []);
    ReadTurn(q, alias, c1);
    NoMoreTurns(q.(next := q.next + 1), q.next);
  }

  /** Any other request is served: a new STARTING row, its slot and its start task, and nothing else. */
  lemma OpenServed(q: State, alias: Alias, c0: Choice, c1: Choice, c2: Choice)
    requires Quiet(q, alias) && Calm([c0, c1, c2]) && c0.listed && !AliasTaken(q.rows, alias) && !Full(q)
    ensures Turns(Apply(q, CallOpen(alias)), q.next, [c0, c1, c2]) == Opening(q, alias)
  {
    hide Apply, Turns, AliasTaken, Full;
    assert !c0.cancelled && !c1.cancelled && !c2.cancelled by {
      assert [c0, c1, c2][0] == c0 && [c0, c1, c2][1] == c1 && [c0, c1, c2][2] == c2;
    }
    assert [c0, c1, c2] == [c0] + ([c1] + ([c2] + []));
    FirstTurn(Apply(q, CallOpen(alias)), q.next, c0, [c1] + ([c2] + []));
    AskTurn(q, alias, c0);
    FirstTurn(Asking(q, alias, OpenRead(alias, AliasTaken(q.rows, alias))), q.next, c1, [c2] + []);
    ReadTurn(q, alias, c1);
    FirstTurn(Inserted(q, alias), q.next, c2, []);
    TakesSlot(q, alias, c2);
    NoMoreTurns(Opening(q, alias), q.next);
  }
}
