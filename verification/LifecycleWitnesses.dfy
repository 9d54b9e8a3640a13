/** Runs in which the lifecycle's promises fail. */
module LifecycleWitnesses {
  import opened Wrappers
  import opened Records
  import opened Database
  import opened Lifecycle
  import opened LifecycleInvariant
  import opened LifecycleOpening
  import opened LifecycleTheorems
  import opened LifecycleSafety
  import opened LifecycleTunnels

  /** Every await answers well, except that chains may fail to close and the await may be cancelled. */
  ghost function Answers(cancelled: bool, closed: bool): Choice {
    Choice(cancelled, true, true, true, true, true, true, closed, true, true, true, false,
           Inspection(false, false, NO_IDENTITY), RuntimeIdentity(7, 8000, "boot", "start", "server"), 9000, Other,
           Other, UserRequested)
  }

  ghost function Next(task: TaskId): Event {
    Turn(task, Answers(false, true))
  }

  lemma {:induction false} RunConcat(s: State, a: seq<Event>, b: seq<Event>)
    ensures Run(s, a + b) == Run(Run(s, a), b)
    decreases |b|
  {
    hide Apply;
    if b == [] {
      assert a + b == a;
    } else {
      var init, last := b[..|b| - 1], b[|b| - 1];
      RunConcat(s, a, init);
      assert a + b == (a + init) + [last] && b == init + [last];
      RunPrefix(s, a + init, last);
      RunPrefix(Run(s, a), init, last);
    }
  }

  lemma RunThree(s: State, a: Event, b: Event, c: Event)
    ensures Run(s, [a, b, c]) == Apply(Apply(Apply(s, a), b), c)
  {
    hide Apply;
    assert [a, b, c] == (([] + [a]) + [b]) + [c];
    RunPrefix(s, [], a);
    RunPrefix(s, [] + [a], b);
    RunPrefix(s, ([] + [a]) + [b], c);
  }

  lemma RunFour(s: State, a: Event, b: Event, c: Event, d: Event)
    ensures Run(s, [a, b, c, d]) == Apply(Apply(Apply(Apply(s, a), b), c), d)
  {
    hide Apply;
    assert [a, b, c, d] == ((([] + [a]) + [b]) + [c]) + [d];
    RunPrefix(s, [], a);
    RunPrefix(s, [] + [a], b);
    RunPrefix(s, ([] + [a]) + [b], c);
    RunPrefix(s, (([] + [a]) + [b]) + [c], d);
  }

  ghost function Fresh(): State {
    Boot(map[], [], map[], {}, [], 0, 1)
  }

  lemma FreshIsInitial()
    ensures Initial(Fresh())
  {
    assert Lists(map[], []) && RowsWellFormed(map[], map[]) && NamesFresh(map[], 0);
  }

  /** recover_all ends, a request opens the alias and inserts its row. */
  ghost function Inserted(alias: Alias): seq<Event> {
    [Next(0), CallOpen(alias), Next(1), Next(1)]
  }

  lemma OpenIsCalled(alias: Alias)
    ensures var q := Apply(Apply(Fresh(), Next(0)), CallOpen(alias));
      && q.tasks == map[1 := OpenLock(alias)] && q.locks == map[] && q.rows == map[] && q.owned == {}
      && q.next == 2 && q.capacity == 1
  {
    var q := Apply(Fresh(), Next(0));
    assert q.recoverer == None && q.tasks == map[] && q.next == 1;
  }

  lemma OpenLocks(q: State, alias: Alias)
    requires q.tasks == map[1 := OpenLock(alias)] && q.locks == map[] && q.rows == map[]
    ensures var q' := Apply(q, Next(1));
      && q'.tasks == map[1 := OpenRead(alias, false)] && q'.rows == map[] && q'.owned == q.owned
      && q'.next == q.next && q'.capacity == q.capacity
  {
  }

  lemma OpenInserts(q: State, alias: Alias)
    requires q.tasks == map[1 := OpenRead(alias, false)] && q.rows == map[] && q.owned == {} && q.capacity == 1
    ensures Apply(q, Next(1)).tasks == map[1 := OpenInsert(alias, q.next)]
  {
  }

  lemma InsertedRuns(alias: Alias)
    ensures var q := Run(Fresh(), Inserted(alias)); 1 in q.tasks && q.tasks[1] == OpenInsert(alias, 2)
  {
    hide Apply, Fresh, Run;
    RunFour(Fresh(), Next(0), CallOpen(alias), Next(1), Next(1));
    OpenIsCalled(alias);
    var q := Apply(Apply(Fresh(), Next(0)), CallOpen(alias));
    OpenLocks(q, alias);
    OpenInserts(Apply(q, Next(1)), alias);
  }

  /** An open can be cancelled between its INSERT and its acquire. */
  lemma AbandoningHappens(alias: Alias)
    ensures Initial(Fresh())
    ensures Abandons(Run(Fresh(), Inserted(alias)), Turn(1, Answers(true, true)), 2)
    ensures var q := Run(Fresh(), Inserted(alias) + [Turn(1, Answers(true, true))]);
      2 in q.rows && 2 !in q.owned && !Inserting(q, 2)
  {
    FreshIsInitial();
    InsertedRuns(alias);
    AbandoningLeavesUnowned(Fresh(), Inserted(alias), Turn(1, Answers(true, true)), 2);
  }

  // ---- tunnels that outlive the reservation, or replace each other -------

  /** An ERROR row whose close was asked for, and whose process may still run. */
  ghost function Unclosed(alias: Alias): Row {
    Row(alias, Error, RuntimeIdentity(7, 8000, "boot", "start", "server").Persisted(), None, Some(StopFailed),
        Some(UserRequested))
  }

  /** A process started on that row, session 1. */
  ghost function Restarted(alias: Alias): State {
    Boot(map[1 := Unclosed(alias)], [Found(1, Unclosed(alias))], map[1 := alias], {}, [], 2, 1)
  }

  lemma RestartedIsInitial(alias: Alias)
    ensures Initial(Restarted(alias))
  {
    var rows, records, names := map[1 := Unclosed(alias)], [Found(1, Unclosed(alias))], map[1 := alias];
    assert IdsOf(records) == [1];
    assert Lists(rows, records) && RowsWellFormed(rows, names) && NamesFresh(names, 2);
  }

  ghost function Unreachable(): Choice {
    Answers(false, true).(connected := false)
  }

  /** recover_all cannot reach the host, leaves the row as it is and ends; requests come after. */
  ghost function Recovers(): seq<Event> {
    [Next(2), Turn(2, Unreachable()), Next(2)]
  }

  ghost function Recovered(alias: Alias): State {
    Run(Restarted(alias), Recovers())
  }

  /** A close is asked for as task `n`, which goes on three times. */
  ghost function AsksToClose(alias: Alias, force: bool, n: TaskId): seq<Event> {
    [CallClose(alias, force), Next(n), Next(n), Next(n)]
  }

  /** A closing task reads the row, takes the tunnel, stops the process and waits for the chain to close. */
  ghost function ReachesClosing(t: TaskId): seq<Event> {
    [Next(t), Next(t), Next(t)]
  }

  /** Closing the chain fails. */
  ghost function Fails(t: TaskId): Event {
    Turn(t, Answers(false, false))
  }

  /** A forced close goes on to the end. */
  ghost function Finishes(t: TaskId): seq<Event> {
    [Next(t), Next(t), Next(t), Next(t)]
  }

  /** What these runs need to know of a state: session 1 alone, with its alias free, and startup over. */
  ghost predicate Knows(q: State, alias: Alias, next: nat) {
    && q.rows.Keys == {1} && q.rows[1].alias == alias && q.rows[1].identity.pid.Some? && q.recoverer == None
    && q.locks == map[] && q.starts == {} && q.opens == map[] && q.next == next
  }

  lemma RecordIsInspected(s: State, alias: Alias)
    requires s.tasks == map[2 := RecoverNext([Found(1, Unclosed(alias))])] && s.locks == map[]
    ensures var q := Apply(s, Next(2));
      && q.tasks == map[2 := RecoverInspect(alias, 1, s.next, [])] && q.locks == map[alias := 2]
      && q.next == s.next + 1 && q.rows == s.rows && q.tunnels == s.tunnels && q.owned == s.owned
      && q.starts == s.starts && q.opens == s.opens
  {
    hide Apply, Next, StepRecoverNext, Answers, Unclosed;
    RecordTaken(s, alias);
    RecordTurn(s, alias);
    assert s.tasks[2 := RecoverInspect(alias, 1, s.next, [])] == map[2 := RecoverInspect(alias, 1, s.next, [])];
  }

  lemma RecordTurn(s: State, alias: Alias)
    requires s.tasks == map[2 := RecoverNext([Found(1, Unclosed(alias))])]
    ensures Apply(s, Next(2)) == StepRecoverNext(s, 2, [Found(1, Unclosed(alias))], Answers(false, true))
  {
    hide StepRecoverNext, Answers, Unclosed;
  }

  lemma RecordTaken(s: State, alias: Alias)
    requires alias !in s.locks
    ensures
      var task := RecoverInspect(alias, 1, s.next, []);
      StepRecoverNext(s, 2, [Found(1, Unclosed(alias))], Answers(false, true))
        == s.(locks := s.locks[alias := 2], backlog := s.backlog - {1}, tasks := s.tasks[2 := task], next := s.next + 1)
  {
    hide StartAttach, StartShut;
    assert [Found(1, Unclosed(alias))][1..] == [];
  }

  lemma RecoveryInspects(alias: Alias)
    ensures var q := Apply(Restarted(alias), Next(2));
      && q.tasks == map[2 := RecoverInspect(alias, 1, 3, [])] && q.locks == map[alias := 2] && q.next == 4
      && q.rows == map[1 := Unclosed(alias)] && q.tunnels == map[] && q.owned == {1}
      && q.starts == {} && q.opens == map[]
  {
    var s, records := Restarted(alias), [Found(1, Unclosed(alias))];
    assert s.rows.Keys == {1} && s.tasks == map[2 := RecoverNext(records)];
    hide Restarted, Apply;
    RecordIsInspected(s, alias);
  }

  lemma RecoveryGoesOn(q: State, alias: Alias)
    requires q.tasks == map[2 := RecoverInspect(alias, 1, 3, [])] && q.locks == map[alias := 2]
    ensures var q' := Apply(q, Turn(2, Unreachable()));
      && q'.tasks == map[2 := RecoverNext([])] && q'.locks == map[] && q'.next == q.next && q'.rows == q.rows
      && q'.tunnels == q.tunnels && q'.owned == q.owned && q'.starts == q.starts && q'.opens == q.opens
  {
  }

  lemma RecoveryEnds(q: State)
    requires q.tasks == map[2 := RecoverNext([])]
    ensures var q' := Apply(q, Next(2));
      && q'.tasks == map[] && q'.recoverer == None && q'.locks == q.locks && q'.next == q.next && q'.rows == q.rows
      && q'.tunnels == q.tunnels && q'.owned == q.owned && q'.starts == q.starts && q'.opens == q.opens
  {
  }

  lemma RecoveredKnows(alias: Alias)
    ensures var q := Recovered(alias);
      Knows(q, alias, 4) && q.tunnels == map[] && q.tasks == map[] && q.owned == {1}
  {
    hide Apply, Run, Restarted, Next, Unreachable;
    RunThree(Restarted(alias), Next(2), Turn(2, Unreachable()), Next(2));
    RecoveryInspects(alias);
    var q1 := Apply(Restarted(alias), Next(2));
    RecoveryGoesOn(q1, alias);
    RecoveryEnds(Apply(q1, Turn(2, Unreachable())));
  }

  lemma OnlyRowFound(rows: Table, alias: Alias)
    requires rows.Keys == {1} && rows[1].alias == alias
    ensures FindByAlias(rows, alias) == Some(1)
  {
    assert 1 in rows;
    assert AliasTaken(rows, alias);
  }

  /** The close has recorded its reason and holds the alias lock. */
  ghost predicate Marked(q: State, q': State, alias: Alias, force: bool, n: nat) {
    && q'.rows.Keys == {1} && q'.rows[1].alias == alias && q'.rows[1].identity.pid.Some?
    && q'.locks == map[alias := n] && q'.starts == {} && q'.opens == map[] && q'.next == n + 1 && q'.recoverer == None
    && q'.tunnels == q.tunnels && q'.owned == q.owned && q'.tasks == q.tasks[n := CloseMark(alias, force, 1)]
  }

  /** The close is task `n`, at the given step, and has changed nothing but the locks. */
  ghost predicate ClosesAt(q: State, q': State, n: nat, task: Task, locks: map<Alias, TaskId>) {
    && q'.rows == q.rows && q'.locks == locks && q'.starts == {} && q'.opens == map[] && q'.next == n + 1
    && q'.recoverer == None
    && q'.tunnels == q.tunnels && q'.owned == q.owned && q'.tasks == q.tasks[n := task]
  }

  lemma CloseIsCalled(q: State, alias: Alias, force: bool, n: nat)
    requires Knows(q, alias, n)
    ensures ClosesAt(q, Apply(q, CallClose(alias, force)), n, CloseLock(alias, force), map[])
  {
  }

  lemma CloseLocks(q: State, q1: State, alias: Alias, force: bool, n: nat)
    requires Knows(q, alias, n) && ClosesAt(q, q1, n, CloseLock(alias, force), map[])
    ensures ClosesAt(q, Apply(q1, Next(n)), n, CloseRead(alias, force, Some(1)), map[alias := n])
  {
    OnlyRowFound(q.rows, alias);
    hide FindByAlias;
  }

  lemma CloseRecordsReason(q: State, q2: State, alias: Alias, force: bool, n: nat)
    requires Knows(q, alias, n) && ClosesAt(q, q2, n, CloseRead(alias, force, Some(1)), map[alias := n])
    ensures Marked(q, Apply(q2, Next(n)), alias, force, n)
  {
  }

  lemma CloseMarks(q: State, alias: Alias, force: bool, n: nat)
    requires Knows(q, alias, n)
    ensures Marked(q, Apply(Apply(Apply(q, CallClose(alias, force)), Next(n)), Next(n)), alias, force, n)
  {
    hide Apply, ClosesAt, Knows, Marked;
    var q1 := Apply(q, CallClose(alias, force));
    CloseIsCalled(q, alias, force, n);
    CloseLocks(q, q1, alias, force, n);
    CloseRecordsReason(q, Apply(q1, Next(n)), alias, force, n);
  }

  lemma CloseSpawns(q: State, alias: Alias, n: nat)
    requires Knows(q, alias, n)
    ensures var q' := Run(q, AsksToClose(alias, false, n));
      && Knows(q', alias, n + 2) && q'.tunnels == q.tunnels && q'.owned == q.owned
      && q'.tasks == (q.tasks - {n})[n + 1 := Shut(alias, Spawned, 1, n + 1, ShutStart)]
  {
    RunFour(q, CallClose(alias, false), Next(n), Next(n), Next(n));
    hide Run, Apply;
    CloseMarks(q, alias, false, n);
    MarkedSpawns(q, Apply(Apply(Apply(q, CallClose(alias, false)), Next(n)), Next(n)), alias, n);
  }

  lemma MarkedSpawns(q: State, marked: State, alias: Alias, n: nat)
    requires Marked(q, marked, alias, false, n)
    ensures var q' := Apply(marked, Next(n));
      && Knows(q', alias, n + 2) && q'.tunnels == q.tunnels && q'.owned == q.owned
      && q'.tasks == (q.tasks - {n})[n + 1 := Shut(alias, Spawned, 1, n + 1, ShutStart)]
  {
    assert Apply(marked, Next(n)).locks == map[];
  }

  lemma IdentityMeansInspection(row: Row)
    requires row.identity.pid.Some?
    ensures !CanCloseWithoutInspection(row)
  {
  }

  /** A spawned close of session 1 is at the given step and has changed nothing else. */
  ghost predicate Closing(q: State, q': State, alias: Alias, t: TaskId, op: nat, at: ShutStep) {
    && q'.rows == q.rows && q'.locks == q.locks && q'.starts == q.starts && q'.opens == q.opens && q'.next == q.next
    && q'.recoverer == q.recoverer && q'.tunnels == q.tunnels && q'.owned == q.owned
    && q'.tasks == q.tasks[t := Shut(alias, Spawned, 1, op, at)]
  }

  lemma SpawnedReads(q: State, alias: Alias, t: TaskId, op: nat)
    requires 1 in q.rows && t in q.tasks && q.tasks[t] == Shut(alias, Spawned, 1, op, ShutStart)
    ensures Closing(q, Apply(q, Next(t)), alias, t, op, ShutRead(Some(q.rows[1])))
  {
  }

  lemma SpawnedTakes(q: State, q1: State, alias: Alias, t: TaskId, op: nat, row: Row)
    requires 1 !in q.tunnels && Closing(q, q1, alias, t, op, ShutRead(Some(row)))
    ensures Closing(q, Apply(q1, Next(t)), alias, t, op, ShutRemote(row, false))
  {
  }

  lemma SpawnedStops(q: State, q2: State, alias: Alias, t: TaskId, op: nat, row: Row)
    requires row.identity.pid.Some? && Closing(q, q2, alias, t, op, ShutRemote(row, false))
    ensures Closing(q, Apply(q2, Next(t)), alias, t, op, ShutClosing(true, false, false))
  {
    IdentityMeansInspection(row);
    hide CanCloseWithoutInspection;
  }

  lemma SpawnedReachesClosing(q: State, alias: Alias, n: nat, t: TaskId, op: nat)
    requires Knows(q, alias, n) && 1 !in q.tunnels
    requires t in q.tasks && q.tasks[t] == Shut(alias, Spawned, 1, op, ShutStart)
    ensures var q' := Run(q, ReachesClosing(t));
      && Knows(q', alias, n) && q'.tunnels == q.tunnels && q'.owned == q.owned
      && q'.tasks == q.tasks[t := Shut(alias, Spawned, 1, op, ShutClosing(true, false, false))]
  {
    RunThree(q, Next(t), Next(t), Next(t));
    hide Run, Apply, Next, Answers;
    var q1 := Apply(q, Next(t));
    SpawnedReads(q, alias, t, op);
    SpawnedTakes(q, q1, alias, t, op, q.rows[1]);
    SpawnedStops(q, Apply(q1, Next(t)), alias, t, op, q.rows[1]);
  }

  /** The failure is noted, and the next moment the chain is put back. */
  lemma SpawnedFails(q: State, alias: Alias, t: TaskId, op: nat)
    requires t in q.tasks && q.tasks[t] == Shut(alias, Spawned, 1, op, ShutClosing(true, false, false))
    ensures var q' := Apply(q, Fails(t));
      && q'.rows == q.rows && q'.tunnels == q.tunnels && q'.owned == q.owned && q'.next == q.next
      && q'.tasks == q.tasks[t := Shut(alias, Spawned, 1, op, ShutClosed(true, true, true))]
  {
    hide ClearTunnelIdentity;
  }

  lemma ForcedStarts(q: State, alias: Alias, n: nat)
    requires Knows(q, alias, n)
    ensures var q' := Run(q, AsksToClose(alias, true, n));
      && q'.rows.Keys == {1} && q'.rows[1].identity.pid.Some? && q'.tunnels == q.tunnels && q'.owned == q.owned
      && q'.tasks == q.tasks[n := Shut(alias, Forced, 1, n + 1, ShutRead(Some(q'.rows[1])))]
  {
    RunFour(q, CallClose(alias, true), Next(n), Next(n), Next(n));
    hide Run, Apply;
    CloseMarks(q, alias, true, n);
    MarkedStarts(q, Apply(Apply(Apply(q, CallClose(alias, true)), Next(n)), Next(n)), alias, n);
  }

  lemma MarkedStarts(q: State, marked: State, alias: Alias, n: nat)
    requires Marked(q, marked, alias, true, n)
    ensures var q' := Apply(marked, Next(n));
      && q'.rows.Keys == {1} && q'.rows[1].identity.pid.Some? && q'.tunnels == q.tunnels && q'.owned == q.owned
      && q'.tasks == q.tasks[n := Shut(alias, Forced, 1, n + 1, ShutRead(Some(q'.rows[1])))]
  {
  }

  /** A forced close of session 1 is at the given step; its tunnel is taken. */
  ghost predicate Forcing(q: State, q': State, alias: Alias, t: TaskId, op: nat, at: ShutStep) {
    && q'.tasks == q.tasks[t := Shut(alias, Forced, 1, op, at)] && q'.tunnels == q.tunnels && 1 !in q.tunnels
  }

  lemma ForcedStops(q: State, alias: Alias, t: TaskId, op: nat, row: Row)
    requires row.identity.pid.Some? && 1 !in q.tunnels
    requires t in q.tasks && q.tasks[t] == Shut(alias, Forced, 1, op, ShutRead(Some(row)))
    ensures Forcing(q, Apply(Apply(q, Next(t)), Next(t)), alias, t, op, ShutClosing(true, false, false))
  {
    hide CanCloseWithoutInspection;
    IdentityMeansInspection(row);
    var q1 := Apply(q, Next(t));
    assert q1.tasks[t] == Shut(alias, Forced, 1, op, ShutRemote(row, false)) && q1.tunnels == q.tunnels;
  }

  lemma ForcedClears(q: State, q2: State, alias: Alias, t: TaskId, op: nat)
    requires Forcing(q, q2, alias, t, op, ShutClosing(true, false, false))
    ensures Forcing(q, Apply(Apply(q2, Next(t)), Next(t)), alias, t, op, ShutCleared(true, false))
  {
    hide ClearRemoteIdentity;
    var q3 := Apply(q2, Next(t));
    assert q3.tasks[t] == Shut(alias, Forced, 1, op, ShutClosed(true, false, false)) && q3.tunnels == q.tunnels;
  }

  lemma ForcedReleases(q: State, q4: State, alias: Alias, t: TaskId, op: nat)
    requires Forcing(q, q4, alias, t, op, ShutCleared(true, false))
    ensures var q' := Apply(Apply(q4, Next(t)), Next(t));
      && 1 !in q'.rows && 1 !in q'.owned && 1 !in q'.tunnels && q'.tasks == q.tasks - {t}
  {
    ForcedConcludes(q, q4, alias, t, op);
    ForcedForgets(q, Apply(q4, Next(t)), alias, t, op);
  }

  lemma ForcedConcludes(q: State, q4: State, alias: Alias, t: TaskId, op: nat)
    requires Forcing(q, q4, alias, t, op, ShutCleared(true, false))
    ensures var q5 := Apply(q4, Next(t));
      Forcing(q, q5, alias, t, op, ShutDelete) && 1 !in q5.rows
  {
  }

  lemma ForcedForgets(q: State, q5: State, alias: Alias, t: TaskId, op: nat)
    requires Forcing(q, q5, alias, t, op, ShutDelete) && 1 !in q5.rows
    ensures var q' := Apply(q5, Next(t));
      && 1 !in q'.rows && 1 !in q'.owned && 1 !in q'.tunnels && q'.tasks == q.tasks - {t}
  {
  }

  lemma ForcedDeletes(q: State, alias: Alias, t: TaskId, op: nat)
    requires q.rows.Keys == {1} && q.rows[1].identity.pid.Some? && 1 !in q.tunnels
    requires t in q.tasks && q.tasks[t] == Shut(alias, Forced, 1, op, ShutRead(Some(q.rows[1])))
    ensures var q' := Apply(Apply(Run(q, Finishes(t)), Next(t)), Next(t));
      && 1 !in q'.rows && 1 !in q'.owned && 1 !in q'.tunnels && q'.tasks == q.tasks - {t}
  {
    RunFour(q, Next(t), Next(t), Next(t), Next(t));
    hide Run, Apply, Forcing;
    ForcedStops(q, alias, t, op, q.rows[1]);
    var q2 := Apply(Apply(q, Next(t)), Next(t));
    ForcedClears(q, q2, alias, t, op);
    ForcedReleases(q, Apply(Apply(q2, Next(t)), Next(t)), alias, t, op);
  }

  lemma PuttingBack(q: State, t: TaskId, alias: Alias, op: nat)
    requires t in q.tasks && q.tasks[t] == Shut(alias, Spawned, 1, op, ShutClosed(true, true, true))
    ensures var q' := Apply(q, Next(t));
      && q'.tunnels == q.tunnels[1 := q.next] && q'.next == q.next + 1 && q'.rows.Keys == q.rows.Keys
      && q'.owned == q.owned
      && q'.tasks == q.tasks[t := Shut(alias, Spawned, 1, op, ShutCleared(true, true))]
  {
  }

  lemma FailsAndPutsBack(q: State, alias: Alias, t: TaskId, op: nat)
    requires t in q.tasks && q.tasks[t] == Shut(alias, Spawned, 1, op, ShutClosing(true, false, false))
    ensures var q' := Apply(Apply(q, Fails(t)), Next(t));
      && q'.tunnels == q.tunnels[1 := q.next] && q'.next == q.next + 1 && q'.rows.Keys == q.rows.Keys
      && q'.owned == q.owned
      && q'.tasks == q.tasks[t := Shut(alias, Spawned, 1, op, ShutCleared(true, true))]
  {
    hide Apply, Next, Fails;
    SpawnedFails(q, alias, t, op);
    PuttingBack(Apply(q, Fails(t)), t, alias, op);
  }

  lemma RunPieces(s: State, a: seq<Event>, b: seq<Event>, c: seq<Event>, d: seq<Event>)
    ensures Run(s, a + b + c + d) == Run(Run(Run(Run(s, a), b), c), d)
  {
    hide Run;
    RunConcat(s, a, b);
    RunConcat(s, a + b, c);
    RunConcat(s, a + b + c, d);
  }

  lemma RunTwoMore(s: State, events: seq<Event>, a: Event, b: Event)
    ensures Run(s, events + [a] + [b]) == Apply(Apply(Run(s, events), a), b)
  {
    hide Run, Apply;
    RunPrefix(s, events, a);
    RunPrefix(s, events + [a], b);
  }

  /** A spawned close waits for its chain to close while a forced close runs from start to end. */
  ghost function ForcedMeanwhile(alias: Alias): seq<Event> {
    Recovers() + AsksToClose(alias, false, 4) + ReachesClosing(5) + (AsksToClose(alias, true, 6) + Finishes(6))
  }

  lemma SpawnedWaits(alias: Alias)
    ensures var q := Run(Run(Recovered(alias), AsksToClose(alias, false, 4)), ReachesClosing(5));
      && Knows(q, alias, 6) && q.tunnels == map[]
      && q.tasks == map[5 := Shut(alias, Spawned, 1, 5, ShutClosing(true, false, false))]
  {
    hide Run, Apply, AsksToClose, ReachesClosing, Knows, Recovered;
    RecoveredKnows(alias);
    CloseSpawns(Recovered(alias), alias, 4);
    SpawnedReachesClosing(Run(Recovered(alias), AsksToClose(alias, false, 4)), alias, 6, 5, 5);
  }

  lemma ForcedEnds(q: State, alias: Alias, n: nat)
    requires Knows(q, alias, n) && q.tunnels == map[]
    ensures var q' := Apply(Apply(Run(q, AsksToClose(alias, true, n) + Finishes(n)), Next(n)), Next(n));
      && q'.tasks == q.tasks - {n} && 1 !in q'.rows && 1 !in q'.owned && 1 !in q'.tunnels
  {
    hide Run, Apply, AsksToClose, Finishes, Knows;
    RunConcat(q, AsksToClose(alias, true, n), Finishes(n));
    ForcedStarts(q, alias, n);
    ForcedDeletes(Run(q, AsksToClose(alias, true, n)), alias, n, n + 1);
  }

  lemma ForcedMeanwhileRuns(alias: Alias)
    ensures var q := Run(Restarted(alias), ForcedMeanwhile(alias) + [Next(6)] + [Next(6)]);
      && 5 in q.tasks && q.tasks[5] == Shut(alias, Spawned, 1, 5, ShutClosing(true, false, false))
      && 1 !in q.rows && 1 !in q.owned && 1 !in q.tunnels
  {
    hide Run, Apply, Restarted, Recovers, AsksToClose, ReachesClosing, Finishes, Next, Knows;
    var s := Restarted(alias);
    SpawnedWaits(alias);
    ForcedEnds(Run(Run(Recovered(alias), AsksToClose(alias, false, 4)), ReachesClosing(5)), alias, 6);
    RunPieces(s, Recovers(), AsksToClose(alias, false, 4), ReachesClosing(5),
              AsksToClose(alias, true, 6) + Finishes(6));
    RunTwoMore(s, ForcedMeanwhile(alias), Next(6), Next(6));
  }

  /** The spawned close then fails and puts its chain back, where no row and no slot is left for it. */
  lemma StrandingHappens(alias: Alias)
    ensures Initial(Restarted(alias))
    ensures
      var events := ForcedMeanwhile(alias) + [Next(6)] + [Next(6)];
      var q := Run(Restarted(alias), events + [Fails(5)] + [Next(5)]);
      Stranded(q, 1) && 1 !in q.rows
  {
    hide Run, Apply, Restarted, ForcedMeanwhile, Next, Fails;
    RestartedIsInitial(alias);
    ForcedMeanwhileRuns(alias);
    var events := ForcedMeanwhile(alias) + [Next(6)] + [Next(6)];
    RunTwoMore(Restarted(alias), events, Fails(5), Next(5));
    FailsAndPutsBack(Run(Restarted(alias), events), alias, 5, 5);
  }

  /** Two closes are spawned, and both wait for a chain of their own to close. */
  ghost function TwoCloses(alias: Alias): seq<Event> {
    Recovers() + AsksToClose(alias, false, 4) + AsksToClose(alias, false, 6) + (ReachesClosing(5) + ReachesClosing(7))
  }

  lemma TwoSpawn(alias: Alias)
    ensures var q := Run(Run(Recovered(alias), AsksToClose(alias, false, 4)), AsksToClose(alias, false, 6));
      && Knows(q, alias, 8) && q.tunnels == map[]
      && 5 in q.tasks && q.tasks[5] == Shut(alias, Spawned, 1, 5, ShutStart)
      && 7 in q.tasks && q.tasks[7] == Shut(alias, Spawned, 1, 7, ShutStart)
  {
    hide Run, Apply, AsksToClose, Knows, Recovered;
    RecoveredKnows(alias);
    CloseSpawns(Recovered(alias), alias, 4);
    CloseSpawns(Run(Recovered(alias), AsksToClose(alias, false, 4)), alias, 6);
  }

  lemma BothReachClosing(q: State, alias: Alias)
    requires Knows(q, alias, 8) && q.tunnels == map[]
    requires 5 in q.tasks && q.tasks[5] == Shut(alias, Spawned, 1, 5, ShutStart)
    requires 7 in q.tasks && q.tasks[7] == Shut(alias, Spawned, 1, 7, ShutStart)
    ensures var q' := Run(q, ReachesClosing(5) + ReachesClosing(7));
      && q'.next == 8 && q'.tunnels == map[]
      && 5 in q'.tasks && q'.tasks[5] == Shut(alias, Spawned, 1, 5, ShutClosing(true, false, false))
      && 7 in q'.tasks && q'.tasks[7] == Shut(alias, Spawned, 1, 7, ShutClosing(true, false, false))
  {
    hide Run, Apply, ReachesClosing;
    RunConcat(q, ReachesClosing(5), ReachesClosing(7));
    SpawnedReachesClosing(q, alias, 8, 5, 5);
    SpawnedReachesClosing(Run(q, ReachesClosing(5)), alias, 8, 7, 7);
  }

  lemma TwoClosesRun(alias: Alias)
    ensures var q := Run(Restarted(alias), TwoCloses(alias));
      && q.next == 8
      && 5 in q.tasks && q.tasks[5] == Shut(alias, Spawned, 1, 5, ShutClosing(true, false, false))
      && 7 in q.tasks && q.tasks[7] == Shut(alias, Spawned, 1, 7, ShutClosing(true, false, false))
  {
    hide Run, Apply, Restarted, Recovers, AsksToClose, ReachesClosing, Next, Knows;
    var s := Restarted(alias);
    TwoSpawn(alias);
    BothReachClosing(Run(Run(Recovered(alias), AsksToClose(alias, false, 4)), AsksToClose(alias, false, 6)), alias);
    RunPieces(s, Recovers(), AsksToClose(alias, false, 4), AsksToClose(alias, false, 6),
              ReachesClosing(5) + ReachesClosing(7));
  }

  /** Both fail; the second to put its chain back replaces the first one's, which is then neither closed nor
      kept in any table. */
  lemma ReplacingHappens(alias: Alias)
    ensures Initial(Restarted(alias))
    ensures
      var q := Run(Restarted(alias), TwoCloses(alias) + [Fails(5)] + [Next(5)] + [Fails(7)]);
      Replaces(q, Next(7), 1)
  {
    hide Run, Apply, Restarted, TwoCloses, Fails;
    RestartedIsInitial(alias);
    TwoClosesRun(alias);
    var s, events := Restarted(alias), TwoCloses(alias);
    var q := Run(s, events + [Fails(5)] + [Next(5)]);
    RunTwoMore(s, events, Fails(5), Next(5));
    RunPrefix(s, events + [Fails(5)] + [Next(5)], Fails(7));
    SecondReplaces(Run(s, events), q, alias);
  }

  lemma SecondReplaces(q0: State, q: State, alias: Alias)
    requires 5 in q0.tasks && q0.tasks[5] == Shut(alias, Spawned, 1, 5, ShutClosing(true, false, false))
    requires 7 in q0.tasks && q0.tasks[7] == Shut(alias, Spawned, 1, 7, ShutClosing(true, false, false))
    requires q == Apply(Apply(q0, Fails(5)), Next(5))
    ensures Replaces(Apply(q, Fails(7)), Next(7), 1)
  {
    hide Apply, Fails;
    FailsAndPutsBack(q0, alias, 5, 5);
    SpawnedFails(q, alias, 7, 7);
  }
}
