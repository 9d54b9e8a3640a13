/** When a session becomes READY, and with what. */
module LifecycleReady {
  import opened Wrappers
  import opened Records
  import opened Database
  import opened Lifecycle
  import opened LifecycleInvariant
  import opened LifecycleTheorems
  import opened LifecycleSafety
  import opened LifecycleEffects
  import opened LifecycleOutcomes

  /** A start task's editor answered, and mark_ready is issued for a row that is still STARTING. */
  ghost predicate Publishes(q: State, e: Event, id: SessionId) {
    && e.OpenTurn? && e.id == id && id in q.opens && q.opens[id].phase == Verifying
    && !e.answers.cancelled && e.answers.healthy
    && id in q.rows && q.rows[id].state == Starting
  }

  /** A reattachment found the session's own process, its forward and the editor work, and
      complete_session_recovery is issued for a row that nobody closed. */
  ghost predicate Recovers(q: State, e: Event, id: SessionId) {
    && e.Turn? && e.task in q.tasks
    && var task, c := q.tasks[e.task], e.answers;
       && task.Attach? && task.id == id && task.step == AttachBegin(true)
       && !c.cancelled && c.connected && Confirms(c.inspection, task.row) && c.healthy
       && id in q.rows && q.rows[id].state != Stopping && q.rows[id].closeReason == None
  }

  // ---- start tasks ---------------------------------------------------------

  lemma StatementsReadyNone(rows: Table, id: SessionId, identity: Identity, port: int, code: ErrorCode)
    ensures NoneReady(rows, rows) && NoneReady(rows, SetRemoteIdentity(rows, id, identity))
    ensures NoneReady(rows, SetTunnelIdentity(rows, id, port)) && NoneReady(rows, ClearTunnelIdentity(rows, id))
    ensures NoneReady(rows, ClearRemoteIdentity(rows, id)) && NoneReady(rows, MarkError(rows, id, code))
  {
  }

  lemma ForwardReady(q: State, id: SessionId, c: Choice)
    requires id in q.opens
    requires
      var phase := q.opens[id].phase;
      phase.Preparing? || phase.Identifying? || phase.Forwarding? || phase.Forwarded?
    ensures NoneReady(q.rows, StepOpen(q, id, c).rows)
  {
    hide NoneReady, SetRemoteIdentity, SetTunnelIdentity;
    StatementsReadyNone(q.rows, id, c.started.Persisted(), c.port, Other);
  }

  lemma VerifyReady(q: State, id: SessionId, c: Choice)
    requires id in q.opens && q.opens[id].phase == Verifying
    ensures StepOpen(q, id, c).rows == if c.cancelled || !c.healthy then q.rows else MarkReady(q.rows, id)
  {
    hide MarkReady;
  }

  lemma PublishReady(q: State, id: SessionId, c: Choice)
    requires id in q.opens
    requires var phase := q.opens[id].phase; phase.Publishing? || phase.Reading? || phase.Judging?
    ensures StepOpen(q, id, c).rows == q.rows
  {
    hide Lookup, At, EndOpen, CleanUp;
    var o, found := q.opens[id], Lookup(q.rows, id);
    MovesKeepRows(q, id, o, Judging(found));
    MovesKeepRows(q, id, o, Reading(found));
    MovesKeepRows(q, id, o.(crashed := !c.cancelled), Judging(found));
  }

  lemma MovesKeepRows(q: State, id: SessionId, o: OpenTask, phase: OpenPhase)
    ensures At(q, id, o, phase).rows == EndOpen(q, id).rows == CleanUp(q, id, o).rows == q.rows
  {
  }

  lemma CleanReady(q: State, id: SessionId, c: Choice)
    requires id in q.opens
    requires var phase := q.opens[id].phase; phase.Releasing? || phase.StoppingRemote? || phase.ClosingChain?
    ensures NoneReady(q.rows, StepOpen(q, id, c).rows)
  {
    hide NoneReady, ClearTunnelIdentity, ClearRemoteIdentity, Lookup;
    StatementsReadyNone(q.rows, id, NO_IDENTITY, c.port, Other);
  }

  lemma MarkReadyNone(q: State, id: SessionId, c: Choice)
    requires id in q.opens
    requires var phase := q.opens[id].phase; phase.Rereading? || phase.Marking? || phase.Late? || phase.LateMarking?
    ensures NoneReady(q.rows, StepOpen(q, id, c).rows)
  {
    hide NoneReady, MarkError, Lookup;
    StatementsReadyNone(q.rows, id, NO_IDENTITY, c.port, q.opens[id].code);
    StatementsReadyNone(q.rows, id, NO_IDENTITY, c.port, InternalError);
  }

  lemma OpenReady(q: State, id: SessionId, c: Choice)
    requires id in q.opens
    ensures
      var rows := StepOpen(q, id, c).rows;
      if q.opens[id].phase == Verifying && !c.cancelled && c.healthy then rows == MarkReady(q.rows, id)
      else NoneReady(q.rows, rows)
  {
    hide NoneReady, MarkReady, StepOpen;
    StatementsReadyNone(q.rows, id, NO_IDENTITY, c.port, Other);
    match q.opens[id].phase
    case Preparing => ForwardReady(q, id, c);
    case Identifying => ForwardReady(q, id, c);
    case Forwarding => ForwardReady(q, id, c);
    case Forwarded(_) => ForwardReady(q, id, c);
    case Verifying => VerifyReady(q, id, c);
    case Publishing => PublishReady(q, id, c);
    case Reading(_) => PublishReady(q, id, c);
    case Judging(_) => PublishReady(q, id, c);
    case Releasing(_) => CleanReady(q, id, c);
    case StoppingRemote => CleanReady(q, id, c);
    case ClosingChain => CleanReady(q, id, c);
    case _ => MarkReadyNone(q, id, c);
  }

  // ---- the other tasks and the world -----------------------------------------

  lemma TurnReady(q: State, t: TaskId, c: Choice)
    requires Inv(q) && t in q.tasks && !Completes(q.tasks[t], c)
    ensures NoneReady(q.rows, StepTask(q, t, c).rows)
  {
    hide Inv, StepTask, Full, TaskActs, Completes, CodesKept, NoneReady, TasksFollow, ShutLeads, ShutTasks, NextStep;
    hide ShutActs;
    var task := q.tasks[t];
    TasksOf(q, t);
    if task.Shut? {
      ShutTurnHolds(q, t, task.alias, task.caller, task.id, task.op, task.at, c);
      ShutSteps(q, t, c);
    } else if task.OpenInsert? && !c.cancelled && !Full(q) {
      AcquireTurn(q, t, task.alias, task.id, c);
      StatementsReadyNone(q.rows, task.id, NO_IDENTITY, 0, Other);
    } else {
      TurnHasEffect(q, t, c);
    }
  }

  lemma WorldReady(q: State, e: Event)
    requires !e.Turn? && !e.OpenTurn?
    ensures Apply(q, e).rows == q.rows
  {
    hide StepConnected, StepDisconnected, Lists, Boot, Spawn;
    if e.Connected? || e.Disconnected? {
      TablesRows(q, e.id);
    } else if e.Restart? {
      BootRows(q, e.order);
    } else {
      SpawnRows(q);
    }
  }

  lemma SpawnRows(q: State)
    ensures forall task :: Spawn(q, task).rows == q.rows
  {
  }

  lemma BootRows(q: State, order: seq<Found>)
    ensures Boot(q.rows, order, q.names, q.launched, q.log, q.next, q.capacity).rows == q.rows
  {
  }

  lemma TablesRows(q: State, id: SessionId)
    ensures StepConnected(q, id).rows == q.rows && StepDisconnected(q, id).rows == q.rows
  {
    if q.recoverer.None? && id in q.owned {
      var count := if id in q.counts then q.counts[id] else 0;
      var left := if count > 0 then count - 1 else 0;
      var counts := if count > 0 then q.counts[id := left] else q.counts;
      assert StepDisconnected(q, id) == q.(counts := counts, timers := if left == 0 then q.timers + {id} else q.timers);
      assert StepConnected(q, id) == q.(timers := q.timers - {id}, counts := q.counts[id := count + 1]);
    }
  }

  // ---- every run -------------------------------------------------------------

  lemma ReadyStep(q: State, e: Event, id: SessionId)
    requires Inv(q) && id in q.rows && q.rows[id].state != Ready
    ensures var q' := Apply(q, e);
      && (id in q'.rows && q'.rows[id].state == Ready <==> Publishes(q, e, id) || Recovers(q, e, id))
      && (Publishes(q, e, id) ==> q'.rows[id] == q.rows[id].(state := Ready))
      && (Recovers(q, e, id) ==> q'.rows[id] == Recovered(q.rows[id], e.answers))
  {
    hide Inv, StepTask, StepOpen, Confirms;
    if e.Turn? {
      if e.task in q.tasks {
        if Completes(q.tasks[e.task], e.answers) {
          hide CodesKept, NoneReady, TaskActs, Effect;
          CompleteTurn(q, e.task, q.tasks[e.task], e.answers);
        } else {
          TurnReady(q, e.task, e.answers);
        }
      }
    } else if e.OpenTurn? {
      if e.id in q.opens { OpenReady(q, e.id, e.answers); }
    } else {
      hide Apply;
      WorldReady(q, e);
    }
  }

  /** In every state of every run, a step makes a session READY exactly when its editor answered a start task,
      or a reattachment found the session's own process with a working editor; the row then says so. */
  lemma {:induction false} ReadyExactly(s: State, events: seq<Event>, e: Event, id: SessionId)
    requires Initial(s) && id in Run(s, events).rows && Run(s, events).rows[id].state != Ready
    ensures
      var q, q' := Run(s, events), Run(s, events + [e]);
      && (id in q'.rows && q'.rows[id].state == Ready <==> Publishes(q, e, id) || Recovers(q, e, id))
      && (Publishes(q, e, id) ==> q'.rows[id] == q.rows[id].(state := Ready))
      && (Recovers(q, e, id) ==>
            q'.rows[id] == q.rows[id].(
              state := Ready, identity := e.answers.inspection.found, localPort := Some(e.answers.port),
              errorCode := None))
  {
    hide Run, Inv, Initial, Apply, Publishes;
    RunInv(s, events);
    RunPrefix(s, events, e);
    ReadyStep(Run(s, events), e, id);
  }
}
