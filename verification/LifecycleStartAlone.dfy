/** A start task that runs alone, from its first turn to its last. */
module LifecycleStartAlone {
  import opened Wrappers
  import opened Records
  import opened Database
  import opened Lifecycle

  // ---- a start task --------------------------------------------------------

  /** The answers a start task gets, by the phase it waits in. */
  type PhaseAnswers = OpenPhase -> Choice

  /** At most `n` turns of a start task. */
  ghost function OpenRun(q: State, id: SessionId, a: PhaseAnswers, n: nat): State
    decreases n
  {
    if n == 0 || id !in q.opens then q
    else OpenRun(Apply(q, OpenTurn(id, a(q.opens[id].phase))), id, a, n - 1)
  }

  lemma OneTurn(q: State, id: SessionId, a: PhaseAnswers, n: nat)
    requires id in q.opens
    ensures OpenRun(q, id, a, n + 1) == OpenRun(StepOpen(q, id, a(q.opens[id].phase)), id, a, n)
  {
    hide StepOpen;
  }

  lemma NoTurn(q: State, id: SessionId, a: PhaseAnswers, n: nat)
    requires id !in q.opens
    ensures OpenRun(q, id, a, n) == q
  {
  }

  /** Nothing cancels the clean-up. */
  ghost predicate Tidy(a: PhaseAnswers) {
    forall phase: OpenPhase ::
      (phase.Judging? || phase.Releasing? || phase.StoppingRemote? || phase.ClosingChain? || phase.Rereading?
       || phase.Marking? || phase.Late? || phase.LateMarking?) ==> !a(phase).cancelled
  }

  /** The state with the start task's row, task, tunnel and port. */
  ghost function With(q: State, id: SessionId, rows: Table, o: OpenTask): State {
    q.(rows := rows, opens := q.opens[id := o])
  }

  // ---- its clean-up ----------------------------------------------------------

  ghost function Untunnelled(rows: Table, id: SessionId, tunnel: bool, c: Choice): Table {
    if tunnel && c.drained then ClearTunnelIdentity(rows, id) else rows
  }

  ghost function Forgotten(rows: Table, id: SessionId, o: OpenTask, c: Choice): Table {
    if o.started && c.stopped && o.persisted then ClearRemoteIdentity(rows, id) else rows
  }

  /** The row as the clean-up leaves it. */
  ghost function Tidied(rows: Table, id: SessionId, o: OpenTask, tunnel: bool, a: PhaseAnswers): Table {
    MarkError(
      Forgotten(Untunnelled(rows, id, tunnel, a(Releasing(tunnel))), id, o, a(StoppingRemote)), id, o.code)
  }

  lemma ReleasesTurn(q: State, id: SessionId, o: OpenTask, tunnel: bool, c: Choice)
    requires id in q.opens && q.opens[id] == o && o.phase == Releasing(tunnel) && !c.cancelled
    ensures StepOpen(q, id, c)
         == With(q, id, Untunnelled(q.rows, id, tunnel, c), o.(phase := StoppingRemote))
  {
    hide ClearTunnelIdentity;
  }

  lemma StopsTurn(q: State, id: SessionId, o: OpenTask, c: Choice)
    requires id in q.opens && q.opens[id] == o && o.phase == StoppingRemote && !c.cancelled
    ensures StepOpen(q, id, c)
         == With(q, id, Forgotten(q.rows, id, o, c), o.(phase := ClosingChain))
  {
    hide ClearRemoteIdentity;
  }

  lemma ClosesTurn(q: State, id: SessionId, o: OpenTask, c: Choice)
    requires id in q.opens && q.opens[id] == o && o.phase == ClosingChain && !c.cancelled
    ensures StepOpen(q, id, c)
         == With(Retain(q, id, c.closed), id, q.rows, o.(phase := Rereading(Lookup(q.rows, id))))
  {
    hide Lookup;
  }

  lemma RereadsTurn(q: State, id: SessionId, o: OpenTask, row: Row, c: Choice)
    requires id in q.opens && q.opens[id] == o && o.phase == Rereading(Some(row)) && row.state != Ready && !c.cancelled
    ensures StepOpen(q, id, c) == With(q, id, MarkError(q.rows, id, o.code), o.(phase := Marking))
  {
    hide MarkError;
  }

  lemma MarksTurn(q: State, id: SessionId, o: OpenTask, c: Choice)
    requires id in q.opens && q.opens[id] == o && o.phase == Marking && !c.cancelled
    ensures StepOpen(q, id, c)
         == if o.crashed then With(q, id, q.rows, o.(phase := Late(Lookup(q.rows, id)))) else EndOpen(q, id)
  {
    hide Lookup;
  }

  lemma LateTurn(q: State, id: SessionId, o: OpenTask, found: Option<Row>, c: Choice)
    requires id in q.opens && q.opens[id] == o && o.phase == Late(found)
    requires found.None? || found.value.state != Starting
    ensures StepOpen(q, id, c) == EndOpen(q, id)
  {
  }

  lemma WithTwice(q: State, id: SessionId, rows: Table, o: OpenTask, rows': Table, o': OpenTask, closed: bool)
    ensures With(With(q, id, rows, o), id, rows', o') == With(q, id, rows', o')
    ensures With(Retain(With(q, id, rows, o), id, closed), id, rows', o') == With(Retain(q, id, closed), id, rows', o')
  {
    assert q.opens[id := o][id := o'] == q.opens[id := o'];
  }

  lemma ClearsKeep(rows: Table, id: SessionId, o: OpenTask, tunnel: bool, c: Choice)
    requires id in rows && rows[id].state == Starting
    ensures id in Untunnelled(rows, id, tunnel, c) && Untunnelled(rows, id, tunnel, c)[id].state == Starting
    ensures id in Forgotten(rows, id, o, c) && Forgotten(rows, id, o, c)[id].state == Starting
  {
  }

  lemma WithFields(q: State, id: SessionId, rows: Table, o: OpenTask)
    ensures var s := With(q, id, rows, o);
      id in s.opens && s.opens[id] == o && s.rows == rows && s.tunnels == q.tunnels && s.registry == q.registry
  {
  }

  /** The turns in which the clean-up lets go of listener, process and chain. */
  lemma LetsGo(q: State, id: SessionId, o: OpenTask, tunnel: bool, a: PhaseAnswers, rows: Table, n: nat)
    requires Tidy(a) && id in q.opens && q.opens[id] == o && o.phase == Releasing(tunnel)
    requires rows == Forgotten(Untunnelled(q.rows, id, tunnel, a(Releasing(tunnel))), id, o, a(StoppingRemote))
    ensures OpenRun(q, id, a, n + 3)
         == OpenRun(With(Retain(q, id, a(ClosingChain).closed), id, rows, o.(phase := Rereading(Lookup(rows, id)))),
                    id, a, n)
  {
    hide OpenRun, StepOpen, Untunnelled, Forgotten, MarkError, Lookup, With, Retain;
    var rows1 := Untunnelled(q.rows, id, tunnel, a(Releasing(tunnel)));
    var o1, o2 := o.(phase := StoppingRemote), o.(phase := ClosingChain);
    var q1 := With(q, id, rows1, o1);
    WithFields(q, id, rows1, o1);
    OneTurn(q, id, a, n + 2);
    ReleasesTurn(q, id, o, tunnel, a(Releasing(tunnel)));
    OneTurn(q1, id, a, n + 1);
    SamePowers(rows1, id, o, o1, a(StoppingRemote));
    StopsTurn(q1, id, o1, a(StoppingRemote));
    WithTwice(q, id, rows1, o1, rows, o2, true);
    ClosesAfter(q, id, rows, o2, a, n);
  }

  lemma SamePowers(rows: Table, id: SessionId, o: OpenTask, o': OpenTask, c: Choice)
    requires o' == o.(phase := o'.phase)
    ensures Forgotten(rows, id, o', c) == Forgotten(rows, id, o, c)
  {
  }

  lemma ClosesAfter(q: State, id: SessionId, rows: Table, o: OpenTask, a: PhaseAnswers, n: nat)
    requires o.phase == ClosingChain && !a(ClosingChain).cancelled
    ensures OpenRun(With(q, id, rows, o), id, a, n + 1)
         == OpenRun(With(Retain(q, id, a(ClosingChain).closed), id, rows, o.(phase := Rereading(Lookup(rows, id)))),
                    id, a, n)
  {
    hide OpenRun, StepOpen, Lookup, With, Retain;
    var q2 := With(q, id, rows, o);
    WithFields(q, id, rows, o);
    OneTurn(q2, id, a, n);
    ClosesTurn(q2, id, o, a(ClosingChain));
    WithTwice(q, id, rows, o, rows, o.(phase := Rereading(Lookup(rows, id))), a(ClosingChain).closed);
  }

  /** From its first await on, the clean-up ends with the row in ERROR and everything released as answered. */
  lemma TidiesUp(q: State, id: SessionId, o: OpenTask, tunnel: bool, a: PhaseAnswers, n: nat)
    requires Tidy(a) && id in q.opens && q.opens[id] == o && o.phase == Releasing(tunnel) && n >= 6
    requires id in q.rows && q.rows[id].state == Starting
    ensures OpenRun(q, id, a, n)
         == EndOpen(Retain(q, id, a(ClosingChain).closed), id).(rows := Tidied(q.rows, id, o, tunnel, a))
  {
    hide OpenRun, StepOpen, Untunnelled, Forgotten, MarkError, Retain, With;
    var rows1 := Untunnelled(q.rows, id, tunnel, a(Releasing(tunnel)));
    var rows := Forgotten(rows1, id, o, a(StoppingRemote));
    ClearsKeep(q.rows, id, o, tunnel, a(Releasing(tunnel)));
    ClearsKeep(rows1, id, o, tunnel, a(StoppingRemote));
    LetsGo(q, id, o, tunnel, a, rows, n - 3);
    var kept := Retain(q, id, a(ClosingChain).closed);
    WithFields(kept, id, rows, o.(phase := Rereading(Lookup(rows, id))));
    EndsWith(kept, id, rows, o.(phase := Rereading(Lookup(rows, id))), a, 0);
    RecordsError(With(kept, id, rows, o.(phase := Rereading(Lookup(rows, id)))), id, rows[id], a, n - 3);
    RetainKeeps(q, id, a(ClosingChain).closed);
  }

  lemma RetainKeeps(q: State, id: SessionId, closed: bool)
    ensures Retain(q, id, closed).opens == q.opens && Retain(q, id, closed).starts == q.starts
  {
  }

  lemma MarkErrorEndsStarting(rows: Table, id: SessionId, code: ErrorCode)
    requires id in rows
    ensures id in MarkError(rows, id, code) && MarkError(rows, id, code)[id].state == Error
  {
  }

  /** And the turns in which it records the error. */
  lemma RecordsError(q: State, id: SessionId, row: Row, a: PhaseAnswers, n: nat)
    requires Tidy(a) && id in q.opens && n >= 3 && id in q.rows && q.rows[id] == row && row.state != Ready
    requires q.opens[id].phase == Rereading(Some(row))
    ensures OpenRun(q, id, a, n) == EndOpen(q, id).(rows := MarkError(q.rows, id, q.opens[id].code))
  {
    hide OpenRun, StepOpen, MarkError, With;
    var o := q.opens[id];
    var rows, o1 := MarkError(q.rows, id, o.code), o.(phase := Marking);
    MarkErrorEndsStarting(q.rows, id, o.code);
    OneTurn(q, id, a, n - 1);
    RereadsTurn(q, id, o, row, a(o.phase));
    WithFields(q, id, rows, o1);
    OneTurn(With(q, id, rows, o1), id, a, n - 2);
    MarksTurn(With(q, id, rows, o1), id, o1, a(Marking));
    EndsWith(q, id, rows, o1, a, n - 2);
    if o.crashed {
      var late := o.(phase := Late(Lookup(rows, id)));
      WithTwice(q, id, rows, o1, rows, late, true);
      WithFields(q, id, rows, late);
      OneTurn(With(q, id, rows, late), id, a, n - 3);
      LateTurn(With(q, id, rows, late), id, late, Lookup(rows, id), a(late.phase));
      EndsWith(q, id, rows, late, a, n - 3);
    }
  }

  lemma EndsWith(q: State, id: SessionId, rows: Table, o: OpenTask, a: PhaseAnswers, n: nat)
    ensures EndOpen(With(q, id, rows, o), id) == EndOpen(q, id).(rows := rows)
    ensures OpenRun(EndOpen(With(q, id, rows, o), id), id, a, n) == EndOpen(q, id).(rows := rows)
  {
    assert q.opens[id := o] - {id} == q.opens - {id};
    NoTurn(EndOpen(With(q, id, rows, o), id), id, a, n);
  }

  // ---- its way forward -------------------------------------------------------

  ghost function Asked(q: State, id: SessionId, c: Choice): State {
    if c.asked then q.(launched := q.launched + {id}) else q
  }

  lemma PreparesTurn(q: State, id: SessionId, o: OpenTask, c: Choice)
    requires id in q.opens && q.opens[id] == o && o.phase == Preparing
    ensures StepOpen(q, id, c)
         == if c.cancelled || !c.connected || !c.asked then
              FailOpen(Asked(q, id, c), id, o, c, if c.asked then c.later else c.code)
            else
              With(Asked(q, id, c), id, SetRemoteIdentity(q.rows, id, c.started.Persisted()),
                   o.(started := true, phase := Identifying))
  {
    hide SetRemoteIdentity, FailOpen;
  }

  lemma IdentifiesTurn(q: State, id: SessionId, o: OpenTask, c: Choice)
    requires id in q.opens && q.opens[id] == o && o.phase == Identifying
    ensures StepOpen(q, id, c)
         == if c.cancelled then FailOpen(q, id, o, c, InternalError)
            else With(q, id, q.rows, o.(persisted := true, phase := Forwarding))
  {
    hide FailOpen;
  }

  lemma ForwardsTurn(q: State, id: SessionId, o: OpenTask, c: Choice)
    requires id in q.opens && q.opens[id] == o && o.phase == Forwarding
    ensures StepOpen(q, id, c)
         == if c.cancelled || !c.healthy then FailOpen(q, id, o, c, c.later)
            else With(q, id, SetTunnelIdentity(q.rows, id, c.port), o.(phase := Forwarded(c.port)))
  {
    hide FailOpen, SetTunnelIdentity;
  }

  /** The tunnel is installed, its port published and its watcher spawned. */
  ghost function Tunnelled(q: State, id: SessionId, port: int): State {
    q.(tunnels := q.tunnels[id := q.next], watched := q.watched[q.next := id], next := q.next + 1,
       registry := q.registry[id := port])
  }

  lemma InstallsTurn(q: State, id: SessionId, o: OpenTask, port: int, c: Choice)
    requires id in q.opens && q.opens[id] == o && o.phase == Forwarded(port) && id !in q.registry
    ensures StepOpen(q, id, c)
         == if c.cancelled then FailOpen(q, id, o, c, InternalError)
            else With(Tunnelled(q, id, port), id, q.rows, o.(published := true, phase := Verifying))
  {
    hide FailOpen;
  }

  lemma VerifiesTurn(q: State, id: SessionId, o: OpenTask, c: Choice)
    requires id in q.opens && q.opens[id] == o && o.phase == Verifying
    ensures StepOpen(q, id, c)
         == if c.cancelled || !c.healthy then FailOpen(q, id, o, c, c.later)
            else With(q, id, MarkReady(q.rows, id), o.(phase := Publishing))
  {
    hide FailOpen, MarkReady;
  }

  /** After mark_ready the task ends and leaves the READY row alone, whatever is cancelled. */
  lemma PublishedEnds(q: State, id: SessionId, o: OpenTask, row: Row, a: PhaseAnswers, n: nat)
    requires Tidy(a) && id in q.opens && q.opens[id] == o && o.phase == Publishing && n >= 3
    requires id in q.rows && q.rows[id] == row && row.state == Ready
    ensures OpenRun(q, id, a, n) == EndOpen(q, id)
  {
    hide OpenRun, StepOpen;
    var reading, judging := o.(phase := Reading(Some(row))), o.(phase := Judging(Some(row)));
    OneTurn(q, id, a, n - 1);
    PublishesTurn(q, id, o, a(Publishing));
    JudgedEnds(q, id, judging, row, a, n - 1);
    if !a(Publishing).cancelled {
      OneTurn(With(q, id, q.rows, reading), id, a, n - 2);
      ReadsTurn(With(q, id, q.rows, reading), id, reading, row, a(reading.phase));
      var crashed := judging.(crashed := false);
      WithTwice(q, id, q.rows, reading, q.rows, crashed, true);
      JudgedEnds(q, id, crashed, row, a, n - 2);
      EndsWith(q, id, q.rows, reading, a, n - 2);
    }
  }

  lemma PublishesTurn(q: State, id: SessionId, o: OpenTask, c: Choice)
    requires id in q.opens && q.opens[id] == o && o.phase == Publishing && id in q.rows
    ensures StepOpen(q, id, c)
         == With(q, id, q.rows,
                 o.(phase := if c.cancelled then Judging(Some(q.rows[id])) else Reading(Some(q.rows[id]))))
  {
  }

  lemma ReadsTurn(q: State, id: SessionId, o: OpenTask, row: Row, c: Choice)
    requires id in q.opens && q.opens[id] == o && o.phase == Reading(Some(row)) && id in q.rows && q.rows[id] == row
    ensures StepOpen(q, id, c)
         == if c.cancelled then With(q, id, q.rows, o.(crashed := false, phase := Judging(Some(row))))
            else EndOpen(q, id)
  {
  }

  lemma JudgedEnds(q: State, id: SessionId, o: OpenTask, row: Row, a: PhaseAnswers, n: nat)
    requires o.phase == Judging(Some(row)) && row.state == Ready && n >= 1
    ensures OpenRun(With(q, id, q.rows, o), id, a, n) == EndOpen(q, id).(rows := q.rows)
  {
    hide OpenRun, StepOpen;
    OneTurn(With(q, id, q.rows, o), id, a, n - 1);
    JudgesTurn(With(q, id, q.rows, o), id, o, row, a(o.phase));
    EndsWith(q, id, q.rows, o, a, n - 1);
  }

  lemma JudgesTurn(q: State, id: SessionId, o: OpenTask, row: Row, c: Choice)
    requires id in q.opens && q.opens[id] == o && o.phase == Judging(Some(row)) && row.state == Ready
    ensures StepOpen(q, id, c) == EndOpen(q, id)
  {
  }

  // ---- from start to end -------------------------------------------------------

  /** How far a start task gets by its answers. */
  ghost predicate Prepares(a: PhaseAnswers) {
    !a(Preparing).cancelled && a(Preparing).asked && a(Preparing).connected
  }

  ghost predicate Identifies(a: PhaseAnswers) {
    Prepares(a) && !a(Identifying).cancelled
  }

  ghost predicate Forwards(a: PhaseAnswers) {
    Identifies(a) && !a(Forwarding).cancelled && a(Forwarding).healthy
  }

  ghost predicate Installs(a: PhaseAnswers) {
    Forwards(a) && !a(Forwarded(a(Forwarding).port)).cancelled
  }

  ghost predicate Verifies(a: PhaseAnswers) {
    Installs(a) && !a(Verifying).cancelled && a(Verifying).healthy
  }

  /** The error of the answer at which it stops. */
  ghost function StopCode(a: PhaseAnswers): ErrorCode {
    if !Prepares(a) then
      if a(Preparing).cancelled then InternalError
      else if a(Preparing).asked then a(Preparing).later else a(Preparing).code
    else if Identifies(a) && !Forwards(a) && !a(Forwarding).cancelled then a(Forwarding).later
    else if Installs(a) && !Verifies(a) && !a(Verifying).cancelled then a(Verifying).later
    else InternalError
  }

  /** The row it leaves: READY with identity and port, or an error with what could not be undone. */
  ghost function StartedRow(alias: Alias, a: PhaseAnswers): Row {
    var identity := a(Preparing).started.Persisted();
    if Verifies(a) then Row(alias, Ready, identity, Some(a(Forwarding).port), None, None)
    else
      Row(alias, Error,
          if Prepares(a) && !(Identifies(a) && a(StoppingRemote).stopped) then identity else NO_IDENTITY,
          if Forwards(a) && !(Installs(a) && a(Releasing(true)).drained) then Some(a(Forwarding).port) else None,
          Some(StopCode(a)), None)
  }

  /** A start task of `id` is over, and nothing of other sessions or tasks has changed. */
  ghost predicate StartOver(q: State, q': State, id: SessionId) {
    && q'.opens == q.opens - {id} && q'.starts == q.starts - {id}
    && q'.owned == q.owned && q'.counts == q.counts && q'.timers == q.timers && q'.locks == q.locks
    && q'.tasks == q.tasks && q'.names == q.names && q'.unacquired == q.unacquired && q'.log == q.log
  }

  /** It failed: the port is withdrawn, and a tunnel is kept only for a chain that did not close. */
  ghost predicate StartFailed(q: State, q': State, id: SessionId, row: Row, closed: bool) {
    && StartOver(q, q', id) && q'.rows == q.rows[id := row] && q'.registry == q.registry
    && (if closed then q'.tunnels == q.tunnels else id in q'.tunnels && q'.tunnels - {id} == q.tunnels)
  }

  lemma TidiedRow(rows: Table, id: SessionId, o: OpenTask, tunnel: bool, a: PhaseAnswers, row: Row)
    requires id in rows && rows[id] == row
    ensures Tidied(rows, id, o, tunnel, a)
         == rows[id := row.(
              state := Error, errorCode := Some(o.code),
              identity := if o.started && o.persisted && a(StoppingRemote).stopped then NO_IDENTITY else row.identity,
              localPort := if tunnel && a(Releasing(tunnel)).drained then None else row.localPort)]
  {
  }

  /** A failure at any turn, the clean-up included. `q0` is the state the start task began in. */
  lemma FailsTidily(
    q0: State, q: State, id: SessionId, o: OpenTask, c: Choice, code: ErrorCode, a: PhaseAnswers, n: nat, row: Row,
    after: Row)
    requires Tidy(a) && n >= 6 && id in q0.opens && id !in q0.tunnels && id !in q0.registry
    requires q == q0.(rows := q0.rows[id := row], opens := q.opens, tunnels := q.tunnels, registry := q.registry,
                      watched := q.watched, next := q.next, launched := q.launched)
    requires id in q.opens && q.opens - {id} == q0.opens - {id} && row.state == Starting
    requires (q.tunnels == q0.tunnels && q.registry == q0.registry && !o.published)
             || (id in q.tunnels && q.tunnels - {id} == q0.tunnels && id in q.registry
                 && q.registry - {id} == q0.registry && o.published)
    requires after == row.(
      state := Error, errorCode := Some(if c.cancelled then InternalError else code),
      identity := if o.started && o.persisted && a(StoppingRemote).stopped then NO_IDENTITY else row.identity,
      localPort := if o.published && a(Releasing(true)).drained then None else row.localPort)
    ensures StartFailed(q0, OpenRun(FailOpen(q, id, o, c, code), id, a, n), id, after, a(ClosingChain).closed)
  {
    hide OpenRun, Tidied, Retain, StartFailed, FailOpen;
    var f := FailOpen(q, id, o, c, code);
    var fo := Failing(o, c, code).(phase := Releasing(id in q.tunnels));
    FailedShape(q, id, o, c, code);
    TidiesUp(f, id, fo, id in q.tunnels, a, n);
    TidiedRow(q.rows, id, fo, id in q.tunnels, a, row);
    assert q0.rows[id := row][id := after] == q0.rows[id := after];
    FailedFields(q0, q, f, id, o, after, a(ClosingChain).closed);
  }

  lemma FailedShape(q: State, id: SessionId, o: OpenTask, c: Choice, code: ErrorCode)
    requires id in q.opens
    ensures var f, fo := FailOpen(q, id, o, c, code), Failing(o, c, code).(phase := Releasing(id in q.tunnels));
      && f == q.(opens := q.opens[id := fo], tunnels := q.tunnels - {id},
                 registry := if o.published then q.registry - {id} else q.registry)
      && f.opens - {id} == q.opens - {id}
  {
    var fo := Failing(o, c, code).(phase := Releasing(id in q.tunnels));
    assert q.opens[id := fo] - {id} == q.opens - {id};
  }

  lemma FailedFields(q0: State, q: State, f: State, id: SessionId, o: OpenTask, after: Row, closed: bool)
    requires id in q0.opens && id !in q0.tunnels && id !in q0.registry
    requires q == q0.(rows := q.rows, opens := q.opens, tunnels := q.tunnels, registry := q.registry,
                      watched := q.watched, next := q.next, launched := q.launched)
    requires id in q.opens && q.opens - {id} == q0.opens - {id}
    requires (q.tunnels == q0.tunnels && q.registry == q0.registry && !o.published)
             || (id in q.tunnels && q.tunnels - {id} == q0.tunnels && id in q.registry
                 && q.registry - {id} == q0.registry && o.published)
    requires f == q.(opens := f.opens, tunnels := q.tunnels - {id},
                     registry := if o.published then q.registry - {id} else q.registry)
    requires f.opens - {id} == q.opens - {id}
    ensures var q' := EndOpen(Retain(f, id, closed), id).(rows := q0.rows[id := after]);
      StartFailed(q0, q', id, after, closed)
  {
    hide Retain;
    assert q0.tunnels - {id} == q0.tunnels;
    var q' := EndOpen(Retain(f, id, closed), id).(rows := q0.rows[id := after]);
    RetainShape(f, id, closed);
    assert f.tunnels == q0.tunnels && f.registry == q0.registry;
    assert q'.opens == q0.opens - {id};
  }

  lemma RetainShape(q: State, id: SessionId, closed: bool)
    ensures var q' := Retain(q, id, closed);
      && q' == q.(tunnels := q'.tunnels, next := q'.next)
      && (if closed then q'.tunnels == q.tunnels else q'.tunnels == q.tunnels[id := q.next])
    ensures id !in q.tunnels ==> q.tunnels[id := q.next] - {id} == q.tunnels
  {
  }

  /** The start task ends READY with tunnel and port, or has failed. */
  ghost predicate Started(q: State, q': State, id: SessionId, alias: Alias, a: PhaseAnswers) {
    if Verifies(a) then
      && StartOver(q, q', id) && q'.rows == q.rows[id := StartedRow(alias, a)]
      && q'.tunnels == q.tunnels[id := q.next] && q'.registry == q.registry[id := a(Forwarding).port]
    else StartFailed(q, q', id, StartedRow(alias, a), a(ClosingChain).closed)
  }

  /** The state of a start task on its way: its row and task, and its tunnel once it is installed. */
  ghost function OnItsWay(q0: State, id: SessionId, row: Row, o: OpenTask, tunnel: Option<int>, c: Choice): State {
    With(
      if tunnel.Some? then Tunnelled(Asked(q0, id, c), id, tunnel.value) else Asked(q0, id, c),
      id, q0.rows[id := row], o)
  }

  ghost predicate Begins(q0: State, id: SessionId) {
    id in q0.opens && id in q0.rows && id !in q0.tunnels && id !in q0.registry
  }

  lemma StageFails(
    q0: State, id: SessionId, o: OpenTask, tunnel: Option<int>, c: Choice, code: ErrorCode, a: PhaseAnswers, n: nat,
    row: Row, after: Row)
    requires Tidy(a) && n >= 6 && Begins(q0, id) && row.state == Starting && o.published == tunnel.Some?
    requires after == row.(
      state := Error, errorCode := Some(if c.cancelled then InternalError else code),
      identity := if o.started && o.persisted && a(StoppingRemote).stopped then NO_IDENTITY else row.identity,
      localPort := if o.published && a(Releasing(true)).drained then None else row.localPort)
    ensures
      var q := OnItsWay(q0, id, row, o, tunnel, a(Preparing));
      StartFailed(q0, OpenRun(FailOpen(q, id, o, c, code), id, a, n), id, after, a(ClosingChain).closed)
  {
    hide OpenRun, FailOpen, StartFailed, OnItsWay;
    WayShape(q0, id, row, o, tunnel, a(Preparing));
    FailsTidily(q0, OnItsWay(q0, id, row, o, tunnel, a(Preparing)), id, o, c, code, a, n, row, after);
  }

  lemma WayShape(q0: State, id: SessionId, row: Row, o: OpenTask, tunnel: Option<int>, c: Choice)
    requires Begins(q0, id)
    ensures var q := OnItsWay(q0, id, row, o, tunnel, c);
      && q == q0.(rows := q0.rows[id := row], opens := q.opens, tunnels := q.tunnels, registry := q.registry,
                  watched := q.watched, next := q.next, launched := q.launched)
      && id in q.opens && q.opens - {id} == q0.opens - {id}
      && (if tunnel.None? then q.tunnels == q0.tunnels && q.registry == q0.registry
          else
            && id in q.tunnels && q.tunnels - {id} == q0.tunnels
            && id in q.registry && q.registry - {id} == q0.registry
            && q.tunnels == q0.tunnels[id := q0.next] && q.registry == q0.registry[id := tunnel.value])
  {
    assert q0.opens[id := o] - {id} == q0.opens - {id};
    if tunnel.Some? {
      assert q0.tunnels[id := q0.next] - {id} == q0.tunnels && q0.registry[id := tunnel.value] - {id} == q0.registry;
    }
  }

  lemma VerifyStage(q0: State, id: SessionId, alias: Alias, o: OpenTask, a: PhaseAnswers, n: nat)
    requires Tidy(a) && n >= 7 && Begins(q0, id) && Installs(a)
    requires o == OpenTask(alias, Verifying, true, true, true, false, InternalError)
    ensures
      var port := a(Forwarding).port;
      var row := Row(alias, Starting, a(Preparing).started.Persisted(), Some(port), None, None);
      Started(q0, OpenRun(OnItsWay(q0, id, row, o, Some(port), a(Preparing)), id, a, n), id, alias, a)
  {
    hide OpenRun, FailOpen, StartFailed, StepOpen, OnItsWay;
    var port := a(Forwarding).port;
    var row := Row(alias, Starting, a(Preparing).started.Persisted(), Some(port), None, None);
    var q := OnItsWay(q0, id, row, o, Some(port), a(Preparing));
    WayFields(q0, id, row, o, Some(port), a(Preparing));
    OneTurn(q, id, a, n - 1);
    VerifiesTurn(q, id, o, a(Verifying));
    if Verifies(a) {
      VerifiedEnds(q0, id, o, port, a, n - 1, row);
    } else {
      StageFails(q0, id, o, Some(port), a(Verifying), a(Verifying).later, a, n - 1, row, StartedRow(alias, a));
    }
  }

  lemma WayFields(q0: State, id: SessionId, row: Row, o: OpenTask, tunnel: Option<int>, c: Choice)
    ensures var q := OnItsWay(q0, id, row, o, tunnel, c);
      && id in q.opens && q.opens[id] == o && q.rows == q0.rows[id := row]
      && (tunnel.None? ==> q.registry == q0.registry)
  {
  }

  lemma VerifiedEnds(q0: State, id: SessionId, o: OpenTask, port: int, a: PhaseAnswers, n: nat, row: Row)
    requires Tidy(a) && n >= 3 && Begins(q0, id) && row.state == Starting
    ensures
      var q := OnItsWay(q0, id, row, o, Some(port), a(Preparing));
      var ready := row.(state := Ready);
      var q' := OpenRun(With(q, id, MarkReady(q.rows, id), o.(phase := Publishing)), id, a, n);
      && StartOver(q0, q', id) && q'.rows == q0.rows[id := ready]
      && q'.tunnels == q0.tunnels[id := q0.next] && q'.registry == q0.registry[id := port]
  {
    hide OpenRun, OnItsWay, StartOver, With;
    var q, ready := OnItsWay(q0, id, row, o, Some(port), a(Preparing)), row.(state := Ready);
    var o1 := o.(phase := Publishing);
    WayShape(q0, id, row, o, Some(port), a(Preparing));
    WayShape(q0, id, ready, o1, Some(port), a(Preparing));
    assert MarkReady(q.rows, id) == q0.rows[id := row][id := ready];
    WayGoesOn(q0, id, row, o, ready, o1, Some(port), a(Preparing));
    WayFields(q0, id, ready, o1, Some(port), a(Preparing));
    PublishedEnds(OnItsWay(q0, id, ready, o1, Some(port), a(Preparing)), id, o1, ready, a, n);
    EndsOver(q0, OnItsWay(q0, id, ready, o1, Some(port), a(Preparing)), id);
  }

  lemma EndsOver(q0: State, q: State, id: SessionId)
    requires q == q0.(rows := q.rows, opens := q.opens, tunnels := q.tunnels, registry := q.registry,
                      watched := q.watched, next := q.next, launched := q.launched)
    requires q.opens - {id} == q0.opens - {id}
    ensures StartOver(q0, EndOpen(q, id), id)
    ensures var q' := EndOpen(q, id); q'.rows == q.rows && q'.tunnels == q.tunnels && q'.registry == q.registry
  {
  }

  /** Steps that change the row or the task on the way. */
  lemma WayGoesOn(
    q0: State, id: SessionId, row: Row, o: OpenTask, row': Row, o': OpenTask, tunnel: Option<int>, c: Choice)
    ensures With(OnItsWay(q0, id, row, o, tunnel, c), id, q0.rows[id := row'], o')
         == OnItsWay(q0, id, row', o', tunnel, c)
    ensures With(OnItsWay(q0, id, row, o, tunnel, c), id, q0.rows[id := row][id := row'], o')
         == OnItsWay(q0, id, row', o', tunnel, c)
    ensures forall port: int ::
      With(Tunnelled(OnItsWay(q0, id, row, o, None, c), id, port), id, q0.rows[id := row], o')
        == OnItsWay(q0, id, row, o', Some(port), c)
  {
    assert q0.opens[id := o][id := o'] == q0.opens[id := o'];
    assert q0.rows[id := row][id := row'] == q0.rows[id := row'];
  }

  lemma InstallStage(q0: State, id: SessionId, alias: Alias, o: OpenTask, a: PhaseAnswers, n: nat)
    requires Tidy(a) && n >= 8 && Begins(q0, id) && Forwards(a)
    requires o == OpenTask(alias, Forwarded(a(Forwarding).port), true, true, false, false, InternalError)
    ensures
      var port := a(Forwarding).port;
      var row := Row(alias, Starting, a(Preparing).started.Persisted(), Some(port), None, None);
      Started(q0, OpenRun(OnItsWay(q0, id, row, o, None, a(Preparing)), id, a, n), id, alias, a)
  {
    hide OpenRun, FailOpen, StartFailed, StepOpen, OnItsWay, Started;
    var port := a(Forwarding).port;
    var row := Row(alias, Starting, a(Preparing).started.Persisted(), Some(port), None, None);
    var q := OnItsWay(q0, id, row, o, None, a(Preparing));
    WayFields(q0, id, row, o, None, a(Preparing));
    OneTurn(q, id, a, n - 1);
    InstallsTurn(q, id, o, port, a(o.phase));
    if Installs(a) {
      var o1 := o.(published := true, phase := Verifying);
      WayGoesOn(q0, id, row, o, row, o1, None, a(Preparing));
      VerifyStage(q0, id, alias, o1, a, n - 1);
    } else {
      StageFails(q0, id, o, None, a(o.phase), InternalError, a, n - 1, row, StartedRow(alias, a));
      FailedIsStarted(q0, OpenRun(FailOpen(q, id, o, a(o.phase), InternalError), id, a, n - 1), id, alias, a);
    }
  }

  lemma FailedIsStarted(q: State, q': State, id: SessionId, alias: Alias, a: PhaseAnswers)
    requires !Verifies(a) && StartFailed(q, q', id, StartedRow(alias, a), a(ClosingChain).closed)
    ensures Started(q, q', id, alias, a)
  {
    hide StartFailed;
  }

  lemma ForwardStage(q0: State, id: SessionId, alias: Alias, o: OpenTask, a: PhaseAnswers, n: nat)
    requires Tidy(a) && n >= 9 && Begins(q0, id) && Identifies(a)
    requires o == OpenTask(alias, Forwarding, true, true, false, false, InternalError)
    ensures
      var row := Row(alias, Starting, a(Preparing).started.Persisted(), None, None, None);
      Started(q0, OpenRun(OnItsWay(q0, id, row, o, None, a(Preparing)), id, a, n), id, alias, a)
  {
    hide OpenRun, FailOpen, StartFailed, StepOpen, OnItsWay, Started;
    var port := a(Forwarding).port;
    var row := Row(alias, Starting, a(Preparing).started.Persisted(), None, None, None);
    var q := OnItsWay(q0, id, row, o, None, a(Preparing));
    WayFields(q0, id, row, o, None, a(Preparing));
    OneTurn(q, id, a, n - 1);
    ForwardsTurn(q, id, o, a(Forwarding));
    if Forwards(a) {
      var o1, row1 := o.(phase := Forwarded(port)), row.(localPort := Some(port));
      assert SetTunnelIdentity(q.rows, id, port) == q0.rows[id := row][id := row1];
      WayGoesOn(q0, id, row, o, row1, o1, None, a(Preparing));
      InstallStage(q0, id, alias, o1, a, n - 1);
    } else {
      StageFails(q0, id, o, None, a(Forwarding), a(Forwarding).later, a, n - 1, row, StartedRow(alias, a));
      FailedIsStarted(q0, OpenRun(FailOpen(q, id, o, a(Forwarding), a(Forwarding).later), id, a, n - 1), id, alias, a);
    }
  }

  lemma IdentifyStage(q0: State, id: SessionId, alias: Alias, o: OpenTask, a: PhaseAnswers, n: nat)
    requires Tidy(a) && n >= 10 && Begins(q0, id) && Prepares(a)
    requires o == OpenTask(alias, Identifying, true, false, false, false, InternalError)
    ensures
      var row := Row(alias, Starting, a(Preparing).started.Persisted(), None, None, None);
      Started(q0, OpenRun(OnItsWay(q0, id, row, o, None, a(Preparing)), id, a, n), id, alias, a)
  {
    hide OpenRun, FailOpen, StartFailed, StepOpen, OnItsWay, Started;
    var row := Row(alias, Starting, a(Preparing).started.Persisted(), None, None, None);
    var q := OnItsWay(q0, id, row, o, None, a(Preparing));
    WayFields(q0, id, row, o, None, a(Preparing));
    OneTurn(q, id, a, n - 1);
    IdentifiesTurn(q, id, o, a(Identifying));
    if Identifies(a) {
      var o1 := o.(persisted := true, phase := Forwarding);
      WayGoesOn(q0, id, row, o, row, o1, None, a(Preparing));
      ForwardStage(q0, id, alias, o1, a, n - 1);
    } else {
      StageFails(q0, id, o, None, a(Identifying), InternalError, a, n - 1, row, StartedRow(alias, a));
      FailedIsStarted(q0, OpenRun(FailOpen(q, id, o, a(Identifying), InternalError), id, a, n - 1), id, alias, a);
    }
  }

  /** A start task that runs alone, to its end: READY with identity, tunnel and port exactly if all its awaits
      succeed; else an error whose code is that of the await that failed, and what cannot be undone stays. */
  lemma StartTaskAlone(q0: State, id: SessionId, alias: Alias, a: PhaseAnswers)
    requires Tidy(a) && Begins(q0, id) && q0.rows[id] == NewRow(alias)
    requires q0.opens[id] == OpenTask(alias, Preparing, false, false, false, false, InternalError)
    ensures Started(q0, OpenRun(q0, id, a, 12), id, alias, a)
  {
    hide OpenRun, FailOpen, StartFailed, StepOpen, OnItsWay, Started;
    var o, c := q0.opens[id], a(Preparing);
    OneTurn(q0, id, a, 11);
    PreparesTurn(q0, id, o, c);
    if Prepares(a) {
      var o1 := o.(started := true, phase := Identifying);
      var row := Row(alias, Starting, c.started.Persisted(), None, None, None);
      assert SetRemoteIdentity(q0.rows, id, c.started.Persisted()) == q0.rows[id := row];
      OnIt(q0, id, row, o1, c);
      IdentifyStage(q0, id, alias, o1, a, 11);
    } else {
      var code := if c.asked then c.later else c.code;
      OnIt(q0, id, NewRow(alias), o, c);
      StageFails(q0, id, o, None, c, code, a, 11, NewRow(alias), StartedRow(alias, a));
      FailedIsStarted(q0, OpenRun(FailOpen(Asked(q0, id, c), id, o, c, code), id, a, 11), id, alias, a);
    }
  }

  lemma OnIt(q0: State, id: SessionId, row: Row, o: OpenTask, c: Choice)
    ensures With(Asked(q0, id, c), id, q0.rows[id := row], o) == OnItsWay(q0, id, row, o, None, c)
    ensures id in q0.opens && q0.opens[id] == o && id in q0.rows && q0.rows[id] == row ==>
      OnItsWay(q0, id, row, o, None, c) == Asked(q0, id, c)
  {
    if id in q0.opens && q0.opens[id] == o && id in q0.rows && q0.rows[id] == row {
      assert q0.opens[id := o] == q0.opens && q0.rows[id := row] == q0.rows;
    }
  }
}
