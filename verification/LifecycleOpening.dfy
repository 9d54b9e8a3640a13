/** Good steps of the start task, of callers and of the outside world. */
module LifecycleOpening {
  import opened Wrappers
  import opened Records
  import opened Database
  import opened Lifecycle
  import opened LifecycleInvariant
  import opened LifecycleSteps

  ghost predicate OpenDue(s: State, id: SessionId, o: OpenTask) {
    Shared(s) && id in s.opens && s.opens[id] == o && OpenOk(s, id, o)
  }

  lemma OpenMoves(s: State, s': State, id: SessionId, o': OpenTask)
    requires s'.tasks == s.tasks
    requires s'.opens == s.opens - {id} || (s'.opens == s.opens[id := o'] && OpenOk(s', id, o'))
    ensures Moves(s, s', ByOpen(id))
  {
    hide TaskOk, OpenOk;
  }

  lemma OpenTasksOk(s: State, s': State, id: SessionId)
    requires Shared(s) && id in s.opens
    requires s'.tasks == s.tasks && s'.locks == s.locks && s'.settling == s.settling && s'.next >= s.next
    requires (s'.opens == s.opens - {id} && s'.starts == s.starts - {id})
             || (id in s'.opens && s'.opens == s.opens[id := s'.opens[id]] && s'.starts == s.starts)
    ensures TasksOk(s, s', ByOpen(id))
  {
    hide RowsOk, TablesOk, LogJustified;
  }

  lemma OpenTurns(s: State, s': State, id: SessionId, o': OpenTask)
    requires Shared(s) && id in s.opens && Shrinks(s, s', ByOpen(id), id) && s'.next >= s.next
    requires s'.tasks == s.tasks && s'.locks == s.locks && s'.settling == s.settling && s'.starts == s.starts
    requires s'.opens == s.opens[id := o'] && OpenOk(s', id, o')
    ensures Good(s, s', ByOpen(id))
  {
    hide OpenOk, Shrinks, Core, Moves, TasksOk;
    OpenTasksOk(s, s', id);
    ShrinksIsCore(s, s', ByOpen(id), id);
    OpenMoves(s, s', id, o');
  }

  lemma EndOpenGood(s: State, id: SessionId, o: OpenTask)
    requires OpenDue(s, id, o)
    ensures Good(s, EndOpen(s, id), ByOpen(id))
  {
    hide Core, Moves, TasksOk, RowsOk, TablesOk, LogJustified, OpenOk;
    var s' := EndOpen(s, id);
    OpenTasksOk(s, s', id);
    ShrinksIsCore(s, s', ByOpen(id), id);
    OpenMoves(s, s', id, o);
  }

  /** Statements a start task issues: it owns the slot and never touches alias or close intent. */
  lemma OpenPatches(s: State, id: SessionId, o: OpenTask, rows: Table, identity: Identity, port: int, code: ErrorCode)
    requires RowsOk(s) && id in s.opens && s.opens[id] == o && OpenOk(s, id, o) && id !in s.unacquired
    requires rows == s.rows
             || (o.phase == Preparing && rows == SetRemoteIdentity(s.rows, id, identity))
             || rows == SetTunnelIdentity(s.rows, id, port)
             || rows == MarkReady(s.rows, id)
             || rows == ClearTunnelIdentity(s.rows, id)
             || rows == ClearRemoteIdentity(s.rows, id)
             || (o.phase != Preparing && rows == MarkError(s.rows, id, code))
    ensures RowsChange(s, rows, ByOpen(id), id)
  {
    hide PatchOk, SetRemoteIdentity, SetTunnelIdentity, MarkReady, ClearTunnelIdentity, ClearRemoteIdentity, MarkError;
    if id in s.rows && rows != s.rows {
      OpenPatched(s, id, o, rows, identity, port, code);
      OpenPatchOk(s, id, o, s.rows[id], rows[id], code);
    } else {
      OpenPatchesNothing(s, id, o, rows, identity, port, code);
    }
  }

  lemma OpenPatchesNothing(
    s: State, id: SessionId, o: OpenTask, rows: Table, identity: Identity, port: int, code: ErrorCode)
    requires id !in s.rows || rows == s.rows
    requires rows == s.rows
             || (o.phase == Preparing && rows == SetRemoteIdentity(s.rows, id, identity))
             || rows == SetTunnelIdentity(s.rows, id, port)
             || rows == MarkReady(s.rows, id)
             || rows == ClearTunnelIdentity(s.rows, id)
             || rows == ClearRemoteIdentity(s.rows, id)
             || (o.phase != Preparing && rows == MarkError(s.rows, id, code))
    ensures rows == s.rows
  {
  }

  /** What these statements do to the row. */
  ghost predicate OpenPatch(o: OpenTask, r: Row, r': Row, code: ErrorCode) {
    || (o.phase == Preparing && r' == r.(identity := r'.identity))
    || r' == r.(localPort := r'.localPort)
    || (r.state == Starting && r' == r.(state := Ready))
    || r' == r.(identity := NO_IDENTITY)
    || (o.phase != Preparing && r' == r.(state := Error, errorCode := Some(code)))
  }

  lemma OpenPatched(s: State, id: SessionId, o: OpenTask, rows: Table, identity: Identity, port: int, code: ErrorCode)
    requires id in s.rows && rows != s.rows
    requires rows == s.rows
             || (o.phase == Preparing && rows == SetRemoteIdentity(s.rows, id, identity))
             || rows == SetTunnelIdentity(s.rows, id, port)
             || rows == MarkReady(s.rows, id)
             || rows == ClearTunnelIdentity(s.rows, id)
             || rows == ClearRemoteIdentity(s.rows, id)
             || (o.phase != Preparing && rows == MarkError(s.rows, id, code))
    ensures id in rows && rows == s.rows[id := rows[id]] && OpenPatch(o, s.rows[id], rows[id], code)
  {
  }

  lemma OpenPatchOk(s: State, id: SessionId, o: OpenTask, r: Row, r': Row, code: ErrorCode)
    requires RowsOk(s) && id in s.opens && s.opens[id] == o && OpenOk(s, id, o) && id !in s.unacquired
    requires id in s.rows && s.rows[id] == r && OpenPatch(o, r, r', code)
    ensures PatchOk(s, r, r', ByOpen(id), id)
  {
    hide RowsNamed, RowsReserved, OneRowPerAlias, UnacquiredUntouched;
  }

  lemma OpenIsAcquired(s: State, id: SessionId)
    requires TablesOk(s) && id in s.opens
    ensures id in s.owned && id !in s.unacquired
  {
  }

  /** A step that issues one statement and moves on, possibly keeping a tunnel object. */
  lemma OpenIssues(
    s: State, s': State, id: SessionId, o: OpenTask, o': OpenTask, port: int, identity: Identity, code: ErrorCode)
    requires OpenDue(s, id, o) && o'.alias == o.alias && o'.phase != Preparing
    requires s'.rows == s.rows
             || (o.phase == Preparing && s'.rows == SetRemoteIdentity(s.rows, id, identity))
             || s'.rows == SetTunnelIdentity(s.rows, id, port)
             || s'.rows == MarkReady(s.rows, id)
             || s'.rows == ClearTunnelIdentity(s.rows, id)
             || s'.rows == ClearRemoteIdentity(s.rows, id)
             || (o.phase != Preparing && s'.rows == MarkError(s.rows, id, code))
    requires s'.opens == s.opens[id := o'] && s'.next >= s.next
    requires
      s' == s.(rows := s'.rows, opens := s'.opens, registry := s'.registry, tunnels := s'.tunnels, next := s'.next,
               launched := s'.launched)
    requires s'.registry == s.registry || s'.registry == s.registry - {id}
    ensures Good(s, s', ByOpen(id))
  {
    hide Good, RowsOk, TablesOk, LogJustified, RowsChange;
    OpenIsAcquired(s, id);
    OpenPatches(s, id, o, s'.rows, identity, port, code);
    OpenTurns(s, s', id, o');
  }

  lemma CleanUpGood(s: State, q: State, id: SessionId, o: OpenTask, o': OpenTask)
    requires OpenDue(s, id, o) && o'.alias == o.alias
    requires q == s.(tunnels := q.tunnels, next := q.next, launched := q.launched) && q.next >= s.next
    ensures Good(s, CleanUp(q, id, o'), ByOpen(id))
  {
    hide Good;
    OpenIssues(s, CleanUp(q, id, o'), id, o, o'.(phase := Releasing(id in q.tunnels)), 0, NO_IDENTITY, Other);
  }

  lemma InstallGrows(s: State, s': State, id: SessionId, o: OpenTask, port: int)
    requires TablesOk(s) && id in s.opens && s.opens[id] == o && OpenOk(s, id, o) && o.phase == Forwarded(port)
    requires s' == s.(opens := s.opens[id := o.(published := true, phase := Verifying)], tunnels := s'.tunnels,
                      next := s.next + 1, registry := s.registry[id := port], watched := s.watched[s.next := id])
    ensures Grows(s, s', ByOpen(id), id)
  {
  }

  lemma InstallOpenGood(s: State, id: SessionId, o: OpenTask, port: int)
    requires OpenDue(s, id, o) && o.phase == Forwarded(port)
    ensures
      var installed := s.(tunnels := s.tunnels[id := s.next], next := s.next + 1);
      var s' := At(installed, id, o.(published := true), Verifying).(
        registry := s.registry[id := port], watched := s.watched[s.next := id]);
      Good(s, s', ByOpen(id))
  {
    hide Good, Core, Moves, LogJustified, RowsOk, TablesOk, Grows;
    var o' := o.(published := true, phase := Verifying);
    var s' := At(s.(tunnels := s.tunnels[id := s.next], next := s.next + 1), id, o.(published := true), Verifying).(
      registry := s.registry[id := port], watched := s.watched[s.next := id]);
    InstallGrows(s, s', id, o, port);
    OpenTasksOk(s, s', id);
    GrowsIsCore(s, s', ByOpen(id), id);
    OpenMoves(s, s', id, o');
    Combine(s, s', ByOpen(id));
  }

  lemma OpenForwardGood(s: State, id: SessionId, o: OpenTask, c: Choice)
    requires OpenDue(s, id, o)
    requires o.phase.Preparing? || o.phase.Identifying? || o.phase.Forwarding? || o.phase.Forwarded?
             || o.phase.Verifying?
    ensures Good(s, StepOpen(s, id, c), ByOpen(id))
  {
    hide Good, Shared, OpenOk, CleanUp;
    var s' := StepOpen(s, id, c);
    var failed := c.cancelled || (o.phase.Preparing? && (!c.connected || !c.asked))
                  || ((o.phase.Forwarding? || o.phase.Verifying?) && !c.healthy);
    if failed {
      var code := if o.phase.Preparing? && !c.asked then c.code
                  else if o.phase.Identifying? || o.phase.Forwarded? then InternalError else c.later;
      var tried := if o.phase.Preparing? && c.asked then s.(launched := s.launched + {id}) else s;
      CleanUpGood(s, tried, id, o, Failing(o, c, code));
    } else if o.phase.Forwarded? {
      if id in s.registry {
        var installed := s.(tunnels := s.tunnels[id := s.next], next := s.next + 1);
        CleanUpGood(s, installed, id, o, Failing(o, c, InternalError));
      } else {
        InstallOpenGood(s, id, o, o.phase.port);
      }
    } else {
      OpenIssues(s, s', id, o, s'.opens[id], c.port, c.started.Persisted(), Other);
    }
  }

  lemma OpenPublishGood(s: State, id: SessionId, o: OpenTask, c: Choice)
    requires OpenDue(s, id, o) && (o.phase.Publishing? || o.phase.Reading? || o.phase.Judging?)
    ensures Good(s, StepOpen(s, id, c), ByOpen(id))
  {
    hide Good, Shared, OpenOk, CleanUp, EndOpen;
    var s' := StepOpen(s, id, c);
    if o.phase.Judging? {
      if c.cancelled || (o.phase.found.Some? && o.phase.found.value.state == Ready) {
        EndOpenGood(s, id, o);
      } else {
        CleanUpGood(s, s, id, o, o);
      }
    } else if o.phase.Reading? && !c.cancelled && o.phase.found.Some? {
      EndOpenGood(s, id, o);
    } else {
      OpenIssues(s, s', id, o, s'.opens[id], 0, NO_IDENTITY, Other);
    }
  }

  lemma OpenCleansGood(s: State, id: SessionId, o: OpenTask, c: Choice)
    requires OpenDue(s, id, o) && (o.phase.Releasing? || o.phase.StoppingRemote? || o.phase.ClosingChain?)
    ensures Good(s, StepOpen(s, id, c), ByOpen(id))
  {
    hide Good, Shared, OpenOk, CleanUp, EndOpen;
    var s' := StepOpen(s, id, c);
    if c.cancelled {
      EndOpenGood(s, id, o);
    } else {
      OpenIssues(s, s', id, o, s'.opens[id], 0, NO_IDENTITY, Other);
    }
  }

  lemma MarksErrorGood(s: State, id: SessionId, o: OpenTask, phase: OpenPhase, code: ErrorCode)
    requires OpenDue(s, id, o) && o.phase != Preparing && phase != Preparing
    ensures Good(s, At(s, id, o, phase).(rows := MarkError(s.rows, id, code)), ByOpen(id))
  {
    hide Good, Shared, OpenOk, MarkError;
    var s' := At(s, id, o, phase).(rows := MarkError(s.rows, id, code));
    OpenIssues(s, s', id, o, o.(phase := phase), 0, NO_IDENTITY, code);
  }

  lemma GoesOnGood(s: State, id: SessionId, o: OpenTask, phase: OpenPhase)
    requires OpenDue(s, id, o) && phase != Preparing
    ensures Good(s, At(s, id, o, phase), ByOpen(id))
  {
    hide Good, Shared, OpenOk;
    OpenIssues(s, At(s, id, o, phase), id, o, o.(phase := phase), 0, NO_IDENTITY, Other);
  }

  lemma OpenMarksGood(s: State, id: SessionId, o: OpenTask, c: Choice)
    requires OpenDue(s, id, o)
    requires o.phase.Rereading? || o.phase.Marking? || o.phase.Late? || o.phase.LateMarking?
    ensures Good(s, StepOpen(s, id, c), ByOpen(id))
  {
    hide Good, Shared, OpenOk, CleanUp, EndOpen, Retain, FailOpen, Lookup, At, SetRemoteIdentity, SetTunnelIdentity;
    hide MarkReady, ClearTunnelIdentity, ClearRemoteIdentity, MarkError;
    EndOpenGood(s, id, o);
    match o.phase
    case Rereading(found) =>
      MarksErrorGood(s, id, o, Marking, o.code);
      GoesOnGood(s, id, o, Late(Lookup(s.rows, id)));
    case Marking => GoesOnGood(s, id, o, Late(Lookup(s.rows, id)));
    case Late(found) => MarksErrorGood(s, id, o, LateMarking, InternalError);
    case LateMarking =>
  }

  lemma OpenStepGood(s: State, id: SessionId, c: Choice)
    requires Inv(s) && id in s.opens
    ensures Good(s, StepOpen(s, id, c), ByOpen(id))
  {
    hide Good, Shared, OpenOk, StepOpen;
    var o := s.opens[id];
    assert OpenDue(s, id, o);
    match o.phase
    case Preparing => OpenForwardGood(s, id, o, c);
    case Identifying => OpenForwardGood(s, id, o, c);
    case Forwarding => OpenForwardGood(s, id, o, c);
    case Forwarded(_) => OpenForwardGood(s, id, o, c);
    case Verifying => OpenForwardGood(s, id, o, c);
    case Publishing => OpenPublishGood(s, id, o, c);
    case Reading(_) => OpenPublishGood(s, id, o, c);
    case Judging(_) => OpenPublishGood(s, id, o, c);
    case Releasing(_) => OpenCleansGood(s, id, o, c);
    case StoppingRemote => OpenCleansGood(s, id, o, c);
    case ClosingChain => OpenCleansGood(s, id, o, c);
    case _ => OpenMarksGood(s, id, o, c);
  }

  // ---- callers and the outside world ------------------------------------

  lemma SpawnGood(s: State, task: Task)
    requires Shared(s) && TaskOk(Spawn(s, task), s.next, task)
    ensures Good(s, Spawn(s, task), ByWorld)
  {
    hide RowsOk, TablesOk, LogJustified, TaskOk, OpenOk, Shrinks, RowsChange, Core;
    var s' := Spawn(s, task);
    NoRowsChange(s, ByWorld, 0);
    TrimsShrinks(s, s', ByWorld, 0);
    assert TasksOk(s, s', ByWorld);
    ShrinksIsCore(s, s', ByWorld, 0);
  }

  lemma TunnelDownGood(s: State, k: nat)
    requires Shared(s) && k in s.watched
    ensures s.watched[k] in s.names
    ensures var id := s.watched[k]; Good(s, Spawn(s, ExitRead(s.names[id], id, k, id in s.rows)), ByWorld)
  {
    hide Good, RowsOk, LogJustified;
    var id := s.watched[k];
    SpawnGood(s, ExitRead(s.names[id], id, k, id in s.rows));
  }

  lemma TablesGood(s: State, s': State, id: SessionId)
    requires Shared(s) && s' == s.(timers := s'.timers, counts := s'.counts)
    requires Shrinks(s, s', ByWorld, id) || Grows(s, s', ByWorld, id)
    ensures Good(s, s', ByWorld)
  {
    hide RowsOk, TablesOk, LogJustified, TaskOk, OpenOk, Core, Shrinks, Grows;
    assert TasksOk(s, s', ByWorld);
    if Shrinks(s, s', ByWorld, id) { ShrinksIsCore(s, s', ByWorld, id); } else { GrowsIsCore(s, s', ByWorld, id); }
  }

  lemma ConnectedGood(s: State, id: SessionId)
    requires Shared(s)
    ensures Good(s, StepConnected(s, id), ByWorld)
  {
    hide Good, RowsOk, TablesOk, LogJustified, Grows, Shrinks;
    var s' := StepConnected(s, id);
    if s' == s {
      NothingShrinks(s, id);
    } else {
      OwnedMayGrow(s, s', id);
    }
    TablesGood(s, s', id);
  }

  lemma NothingShrinks(s: State, id: SessionId)
    requires LogJustified(s.log)
    ensures Shrinks(s, s, ByWorld, id)
  {
    hide LogJustified, RowsChange, RowGoes, KeepsLog;
    NoRowsChange(s, ByWorld, id);
    TrimsShrinks(s, s, ByWorld, id);
  }

  lemma DisconnectedGood(s: State, id: SessionId)
    requires Shared(s)
    ensures Good(s, StepDisconnected(s, id), ByWorld)
  {
    hide Good, RowsOk, TablesOk, LogJustified, Grows, Shrinks;
    if s.recoverer.Some? {
      NothingShrinks(s, id);
      TablesGood(s, s, id);
    } else if id !in s.owned {
      ForgottenShrinks(s, id);
      TablesGood(s, s.(timers := s.timers - {id}, counts := s.counts - {id}), id);
    } else {
      var count := if id in s.counts then s.counts[id] else 0;
      var left := if count > 0 then count - 1 else 0;
      var counts := if count > 0 then s.counts[id := left] else s.counts;
      CountGood(s, id, counts, if left == 0 then s.timers + {id} else s.timers);
    }
  }

  lemma CountGood(s: State, id: SessionId, counts: map<SessionId, nat>, timers: set<SessionId>)
    requires Shared(s) && s.recoverer.None? && id in s.owned
    requires timers <= s.timers + {id} && counts.Keys <= s.counts.Keys + {id}
    ensures Good(s, s.(counts := counts, timers := timers), ByWorld)
  {
    hide Good, RowsOk, TablesOk, LogJustified, Grows, Shrinks;
    OwnedMayGrow(s, s.(counts := counts, timers := timers), id);
    TablesGood(s, s.(counts := counts, timers := timers), id);
  }

  lemma ForgottenShrinks(s: State, id: SessionId)
    requires LogJustified(s.log)
    ensures Shrinks(s, s.(timers := s.timers - {id}, counts := s.counts - {id}), ByWorld, id)
  {
    hide LogJustified, RowsChange, RowGoes;
    NoRowsChange(s, ByWorld, id);
  }

  lemma OwnedMayGrow(s: State, s': State, id: SessionId)
    requires TablesOk(s) && s.recoverer.None? && id in s.owned
    requires s' == s.(timers := s'.timers, counts := s'.counts)
    requires s'.timers <= s.timers + {id} && s'.counts.Keys <= s.counts.Keys + {id}
    ensures Grows(s, s', ByWorld, id)
  {
  }

  lemma TimerGoneGood(s: State, id: SessionId)
    requires Shared(s)
    ensures Good(s, s.(timers := s.timers - {id}), ByWorld)
  {
    hide Good, RowsOk, LogJustified;
    TablesGood(s, s.(timers := s.timers - {id}), id);
  }

  // ---- process start ----------------------------------------------------

  ghost predicate RowsWellFormed(rows: Table, names: map<SessionId, Alias>) {
    RowsNamed(rows, names) && OneRowPerAlias(rows) && CloseIntent(rows)
  }

  lemma BootTodo(
    rows: Table, order: seq<Found>, names: map<SessionId, Alias>, launched: set<SessionId>, log: seq<Act>, next: nat,
    capacity: nat)
    requires RowsWellFormed(rows, names) && Lists(rows, order)
    ensures TodoOk(Boot(rows, order, names, launched, log, next, capacity), next, order)
  {
  }

  lemma BootTables(
    rows: Table, order: seq<Found>, names: map<SessionId, Alias>, launched: set<SessionId>, log: seq<Act>, next: nat,
    capacity: nat)
    requires RowsNamed(rows, names) && NamesFresh(names, next)
    ensures TablesOk(Boot(rows, order, names, launched, log, next, capacity))
  {
  }

  lemma BootInv(
    rows: Table, order: seq<Found>, names: map<SessionId, Alias>, launched: set<SessionId>, log: seq<Act>, next: nat,
    capacity: nat)
    requires RowsWellFormed(rows, names) && LogJustified(log) && NamesFresh(names, next) && Lists(rows, order)
    ensures Inv(Boot(rows, order, names, launched, log, next, capacity))
  {
    hide LogJustified, TodoOk, TablesOk, OpenTaskOk, CloseTaskOk, ShutOk, RetryTaskOk, AttachOk, ExitTaskOk, Lists;
    BootTodo(rows, order, names, launched, log, next, capacity);
    BootTables(rows, order, names, launched, log, next, capacity);
  }
}
