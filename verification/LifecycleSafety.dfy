/** What the gateway's lifecycle promises, for every interleaving of requests, failures,
    cancellations, closing tunnels and restarts. */
module LifecycleSafety {
  import opened Wrappers
  import opened Records
  import opened Database
  import opened Lifecycle
  import opened LifecycleInvariant
  import opened LifecycleTheorems

  lemma RunPrefix(s: State, events: seq<Event>, e: Event)
    ensures Run(s, events + [e]) == Apply(Run(s, events), e)
  {
    hide Apply;
    assert (events + [e])[..|events + [e]| - 1] == events;
  }

  lemma RowsOfInv(s: State)
    requires Inv(s)
    ensures RowsNamed(s.rows, s.names) && OneRowPerAlias(s.rows) && CloseIntent(s.rows)
    ensures RowsReserved(s.rows, s.owned, s.unacquired)
    ensures LedgerBounded(s.owned, s.capacity, s.startRows)
    ensures TablesOwned(s.registry, s.counts, s.timers, s.opens, s.owned)
    ensures IdsKnown(s.owned, s.unacquired, s.names)
    ensures LogJustified(s.log)
  {
    hide TaskOk, OpenOk, RowsNamed, OneRowPerAlias, CloseIntent, RowsReserved, LedgerBounded, TablesOwned, IdsKnown;
    hide LogJustified, BacklogKnown, BacklogQuiet, WatchedKnown, NamesFresh, TasksFresh, StartsAwaited;
  }

  // ---- reservation ------------------------------------------------------

  /** One row per alias, and no more slots taken than capacity or the rows found at start. */
  lemma {:induction false} OneRowAndBoundedLedger(s: State, events: seq<Event>)
    requires Initial(s)
    ensures var q := Run(s, events);
      && (forall i, j :: i in q.rows && j in q.rows && q.rows[i].alias == q.rows[j].alias ==> i == j)
      && |q.owned| <= (if q.capacity >= q.startRows then q.capacity else q.startRows)
  {
    hide Inv, Initial, Run;
    RunInv(s, events);
    RowsOfInv(Run(s, events));
  }

  /** open's INSERT never meets the UNIQUE constraint on alias. */
  lemma {:induction false} InsertNeverConflicts(s: State, events: seq<Event>, t: TaskId, alias: Alias)
    requires Initial(s)
    requires var q := Run(s, events); t in q.tasks && q.tasks[t] == OpenRead(alias, false)
    ensures forall id :: id in Run(s, events).rows ==> Run(s, events).rows[id].alias != alias
  {
    hide Shared, Initial, Run, OpenOk;
    RunInv(s, events);
    assert TaskOk(Run(s, events), t, OpenRead(alias, false));
  }

  /** Registry, presence counts and grace timers only hold ids that own a slot. */
  lemma {:induction false} TablesNeverOutliveReservation(s: State, events: seq<Event>)
    requires Initial(s)
    ensures var q := Run(s, events); q.registry.Keys <= q.owned && q.counts.Keys <= q.owned && q.timers <= q.owned
  {
    hide Inv, Initial, Run;
    RunInv(s, events);
    RowsOfInv(Run(s, events));
  }

  /** The step cancels an open between its INSERT and its acquire. */
  ghost predicate Abandons(q: State, e: Event, id: SessionId) {
    && e.Turn? && e.answers.cancelled && e.task in q.tasks
    && q.tasks[e.task].OpenInsert? && q.tasks[e.task].id == id
  }

  ghost predicate Inserting(q: State, id: SessionId) {
    exists t :: t in q.tasks && q.tasks[t].OpenInsert? && q.tasks[t].id == id
  }

  ghost predicate AbandonedIn(s: State, events: seq<Event>, id: SessionId) {
    exists i :: 0 <= i < |events| && Abandons(Run(s, events[..i]), events[i], id)
  }

  lemma AbandonedLonger(s: State, events: seq<Event>, e: Event, id: SessionId)
    requires AbandonedIn(s, events, id) || Abandons(Run(s, events), e, id)
    ensures AbandonedIn(s, events + [e], id)
  {
    hide Run, Abandons;
    var all := events + [e];
    if Abandons(Run(s, events), e, id) {
      assert all[..|events|] == events && all[|events|] == e;
    } else {
      var i :| 0 <= i < |events| && Abandons(Run(s, events[..i]), events[i], id);
      assert all[..i] == events[..i] && all[i] == events[i];
    }
  }

  /** One step: a row without a slot was there before, or is being inserted, or was just abandoned. */
  lemma UnownedStep(q: State, e: Event, id: SessionId)
    requires Inv(q)
    requires var q' := Apply(q, e); id in q'.rows && id !in q'.owned && !Inserting(q', id)
    ensures (id in q.rows && id !in q.owned && !Inserting(q, id)) || Abandons(q, e, id)
  {
    var q' := Apply(q, e);
    if q' != q {
      hide Apply, Good, Inv, TaskOk, OpenOk;
      ApplyKeepsInv(q, e);
      RowsOfInv(q');
      if e.Restart? {
        RestartOwnsAll(q, e);
      } else {
        StepGood(q, e);
        UnownedGood(q, q', e, id);
      }
    }
  }

  lemma RestartOwnsAll(q: State, e: Event)
    requires e.Restart? && Apply(q, e) != q
    ensures Apply(q, e).rows == q.rows && Apply(q, e).owned == q.rows.Keys
    ensures Apply(q, e).names == q.names && Apply(q, e).log == q.log
  {
  }

  lemma OpenStepUnacquired(q: State, t: TaskId, c: Choice, id: SessionId)
    requires t in q.tasks && (q.tasks[t].OpenRead? || q.tasks[t].OpenInsert?)
    requires var q' := StepTask(q, t, c); id in q'.rows && id in q'.unacquired && !Inserting(q', id)
    ensures id in q.unacquired
    ensures q.tasks[t].OpenInsert? && q.tasks[t].id == id ==> c.cancelled
  {
    hide StepOpenRead, StepOpenInsert;
    match q.tasks[t]
    case OpenRead(alias, found) => ReadStepUnacquired(q, t, alias, found, c, id);
    case OpenInsert(alias, inserted) => InsertStepUnacquired(q, t, alias, inserted, c, id);
  }

  lemma PutFields(s: State, t: TaskId, task: Task, alias: Alias)
    ensures Put(s, t, task).tasks == s.tasks[t := task] && Leave(s, t, alias).unacquired == s.unacquired
  {
  }

  lemma ReadStepUnacquired(q: State, t: TaskId, alias: Alias, found: bool, c: Choice, id: SessionId)
    ensures var q' := StepOpenRead(q, t, alias, found, c);
      id in q'.unacquired ==> id in q.unacquired || Inserting(q', id)
  {
    hide AliasTaken, Full, Insert, Put, Leave;
    var q', task := StepOpenRead(q, t, alias, found, c), OpenInsert(alias, q.next);
    PutFields(q, t, task, alias);
    if !(c.cancelled || found || Full(q) || AliasTaken(q.rows, alias)) {
      assert q'.unacquired == q.unacquired + {q.next} && t in q'.tasks && q'.tasks[t] == task;
    }
  }

  lemma InsertStepUnacquired(q: State, t: TaskId, alias: Alias, inserted: SessionId, c: Choice, id: SessionId)
    requires var q' := StepOpenInsert(q, t, alias, inserted, c); id in q'.rows && id in q'.unacquired
    ensures id in q.unacquired && (id == inserted ==> c.cancelled)
  {
    hide Full;
    if !c.cancelled && Full(q) {
      assert id in q.rows && id != inserted;
    } else if !c.cancelled {
      assert StepOpenInsert(q, t, alias, inserted, c).unacquired == q.unacquired - {inserted};
    }
  }

  lemma UnownedGood(q: State, q': State, e: Event, id: SessionId)
    requires Inv(q) && q' == Apply(q, e) && Good(q, q', ActorOf(e)) && q' != q && !e.Restart?
    requires id in q'.rows && id in q'.unacquired && id !in q'.owned && !Inserting(q', id)
    ensures (id in q.rows && id !in q.owned && !Inserting(q, id)) || Abandons(q, e, id)
  {
    hide Inv, Shared, Moves, TaskOk, OpenOk, StepTask, StepOpen, StepConnected, StepDisconnected, Spawn;
    hide KeepsLocks, KeepsNames, KeepsOpens, KeepsOwned, KeepsQuiet, KeepsRecovery, KeepsLog, KeepsRow;
    RowsOfInv(q);
    if e.Turn? && (q.tasks[e.task].OpenRead? || q.tasks[e.task].OpenInsert?) {
      OpenStepUnacquired(q, e.task, e.answers, id);
    }
    assert id in q.unacquired && id in q.rows;
    if Inserting(q, id) {
      var t :| t in q.tasks && q.tasks[t].OpenInsert? && q.tasks[t].id == id;
      assert ActorOf(e) == ByTask(t);
    }
  }

  /** A row is without a slot, and no open is about to take one for it, only because the caller of
      that open was cancelled between its INSERT and its acquire. */
  lemma {:induction false} UnownedRowWasAbandoned(s: State, events: seq<Event>, id: SessionId)
    requires Initial(s)
    requires var q := Run(s, events); id in q.rows && id !in q.owned && !Inserting(q, id)
    ensures AbandonedIn(s, events, id)
    decreases |events|
  {
    if events == [] {
    } else {
      hide Run, Inv, Apply;
      var before, e := events[..|events| - 1], events[|events| - 1];
      assert events == before + [e];
      RunPrefix(s, before, e);
      RunInv(s, before);
      UnownedStep(Run(s, before), e, id);
      if !Abandons(Run(s, before), e, id) { UnownedRowWasAbandoned(s, before, id); }
      AbandonedLonger(s, before, e, id);
    }
  }

  /** And such a cancellation does leave the row, unowned and with nobody to reserve it. */
  lemma {:induction false} AbandoningLeavesUnowned(s: State, events: seq<Event>, e: Event, id: SessionId)
    requires Initial(s) && Abandons(Run(s, events), e, id)
    ensures var q := Run(s, events + [e]); id in q.rows && id !in q.owned && !Inserting(q, id)
  {
    var q := Run(s, events);
    RunPrefix(s, events, e);
    assert TaskOk(q, e.task, q.tasks[e.task]) by { hide Run; RunInv(s, events); }
    OnlyInserter(s, events, e.task, id);
    assert id !in q.owned by { hide Run, Inv; RunInv(s, events); RowsOfInv(q); }
  }

  lemma OnlyInserter(s: State, events: seq<Event>, t: TaskId, id: SessionId)
    requires Initial(s)
    requires var q := Run(s, events); t in q.tasks && q.tasks[t].OpenInsert? && q.tasks[t].id == id
    ensures var q := Run(s, events);
      forall u :: u in q.tasks && q.tasks[u].OpenInsert? && q.tasks[u].id == id ==> u == t
  {
    hide Run, Shared, OpenOk;
    RunInv(s, events);
    var q := Run(s, events);
    forall u | u in q.tasks && q.tasks[u].OpenInsert? && q.tasks[u].id == id ensures u == t {
      assert TaskOk(q, u, q.tasks[u]) && TaskOk(q, t, q.tasks[t]);
    }
  }

  /** A slot is given up only when the row is gone. */
  lemma {:induction false} SlotReleasedAfterRow(s: State, events: seq<Event>, e: Event, id: SessionId)
    requires Initial(s)
    requires id in Run(s, events).owned && id !in Run(s, events + [e]).owned
    ensures id !in Run(s, events).rows
  {
    hide Run, Inv, Apply, Good;
    var q := Run(s, events);
    RunPrefix(s, events, e);
    RunInv(s, events);
    if e.Restart? {
      RestartOwnsAll(q, e);
    } else {
      StepGood(q, e);
      GoodOwned(q, Apply(q, e), ActorOf(e));
    }
  }

  lemma GoodOwned(q: State, q': State, a: Actor)
    requires Good(q, q', a)
    ensures KeepsOwned(q, q'.owned) && KeepsRows(q, q'.rows, a) && KeepsNames(q, q'.names)
  {
    hide Shared, Moves, KeepsLocks, KeepsTasks, KeepsNames, KeepsRows, KeepsOpens, KeepsOwned, KeepsQuiet;
    hide KeepsRecovery, KeepsUnacquired, KeepsLog;
  }

  // ---- close intent -----------------------------------------------------

  ghost predicate IntentHolds(q: State, id: SessionId) {
    && id in q.names
    && (id in q.rows ==>
          q.rows[id].closeReason.Some? && (q.rows[id].state == Stopping || q.rows[id].state == Error))
  }

  lemma IntentStep(q: State, e: Event, id: SessionId)
    requires Inv(q) && IntentHolds(q, id)
    ensures IntentHolds(Apply(q, e), id)
  {
    var q' := Apply(q, e);
    if q' != q {
      hide Apply, Inv, Good;
      ApplyKeepsInv(q, e);
      RowsOfInv(q');
      if e.Restart? {
        RestartOwnsAll(q, e);
      } else {
        StepGood(q, e);
        GoodOwned(q, q', ActorOf(e));
        if id in q'.rows { assert id in q.rows; assert KeepsRow(q, q.rows[id], q'.rows[id], ActorOf(e), id); }
      }
    }
  }

  /** Once a row's close reason is recorded, no further events take the session back to STARTING or
      READY: until the row is deleted it is STOPPING or ERROR, and the reason stays. */
  lemma {:induction false} CloseIntentIsIrrevocable(s: State, events: seq<Event>, more: seq<Event>, id: SessionId)
    requires Initial(s)
    requires id in Run(s, events).rows && Run(s, events).rows[id].closeReason.Some?
    ensures IntentHolds(Run(s, events + more), id)
    decreases |more|
  {
    hide Run, Inv, Apply;
    if more == [] {
      assert events + more == events;
      RunInv(s, events);
      RowsOfInv(Run(s, events));
    } else {
      var before, e := more[..|more| - 1], more[|more| - 1];
      assert events + more == (events + before) + [e];
      CloseIntentIsIrrevocable(s, events, before, id);
      RunInv(s, events + before);
      RunPrefix(s, events + before, e);
      IntentStep(Run(s, events + before), e, id);
    }
  }

  /** A recovery that began is never refused its completion: whatever else runs, the row is still there and
      not being closed when complete_session_recovery has been issued, and until the attempt ends. */
  lemma {:induction false} RecoveryAlwaysCompletes(s: State, events: seq<Event>, t: TaskId)
    requires Initial(s)
    requires var q := Run(s, events); t in q.tasks && q.tasks[t].Attach? && q.tasks[t].step != AttachBegin(false)
    ensures var q, task := Run(s, events), Run(s, events).tasks[t];
      && (task.step.AttachComplete? ==> task.step.completed)
      && task.id in q.rows && q.rows[task.id].closeReason == None && q.rows[task.id].state != Stopping
  {
    hide Run, Initial, TablesOk, LogJustified, OpenOk, RowsNamed, RowsReserved, OneRowPerAlias;
    RunInv(s, events);
    var q := Run(s, events);
    assert TaskOk(q, t, q.tasks[t]);
  }

  // ---- deletion ---------------------------------------------------------

  lemma GoodRecords(q: State, q': State, a: Actor)
    requires Good(q, q', a)
    ensures RowsRecorded(q.rows, q'.rows, q.log, q'.log)
  {
    hide Shared, Moves, KeepsLocks, KeepsTasks, KeepsNames, KeepsRows, KeepsOpens, KeepsOwned, KeepsQuiet;
    hide KeepsRecovery, KeepsUnacquired, KeepsLog, RowsRecorded;
  }

  /** No row disappears unrecorded: only open's own rollback and the deletions the log names remove one. */
  lemma {:induction false} DeletionIsLogged(s: State, events: seq<Event>, e: Event, id: SessionId)
    requires Initial(s)
    requires id in Run(s, events).rows && id !in Run(s, events + [e]).rows
    ensures DeletionLogged(Run(s, events).log, Run(s, events + [e]).log, id)
  {
    hide Run, Inv, Apply, Good, DeletionLogged;
    var q := Run(s, events);
    RunPrefix(s, events, e);
    RunInv(s, events);
    if e.Restart? {
      RestartOwnsAll(q, e);
    } else {
      StepGood(q, e);
      GoodRecords(q, Apply(q, e), ActorOf(e));
    }
  }

  /** Every unforced deletion was preceded, in the same operation, by a stop confirmation, a
      not-running inspection or the pre-remote-failure rule; every removal of remote metadata by one
      of the first two. */
  lemma {:induction false} DeletionsAreJustified(s: State, events: seq<Event>, i: nat)
    requires Initial(s) && i < |Run(s, events).log|
    ensures var log := Run(s, events).log;
      && (log[i].Deleted? && !log[i].forced ==>
            Confirmed(log[i].op, log[i].id) in log[..i] || PreRemote(log[i].op, log[i].id) in log[..i])
      && (log[i].Removing? ==> Confirmed(log[i].op, log[i].id) in log[..i])
  {
    hide Run, Inv, Initial;
    RunInv(s, events);
    RowsOfInv(Run(s, events));
  }

  // ---- remote identity --------------------------------------------------

  /** A persisted identity field is never replaced by another value: it is set once, or cleared. */
  lemma {:induction false} IdentityIsWriteOnce(s: State, events: seq<Event>, e: Event, id: SessionId)
    requires Initial(s)
    requires id in Run(s, events).rows && id in Run(s, events + [e]).rows
    ensures WriteOnce(Run(s, events).rows[id].identity, Run(s, events + [e]).rows[id].identity)
  {
    hide Run, Inv, Apply, Good;
    var q := Run(s, events);
    RunPrefix(s, events, e);
    RunInv(s, events);
    var q' := Apply(q, e);
    if q' != q {
      if e.Restart? {
        RestartOwnsAll(q, e);
      } else {
        StepGood(q, e);
        GoodOwned(q, q', ActorOf(e));
        assert KeepsRow(q, q.rows[id], q'.rows[id], ActorOf(e), id);
      }
    }
  }
}
