/** What client callbacks alone make of the presence counts and the grace timers. */
module LifecyclePresence {
  import opened Records
  import opened Lifecycle

  ghost predicate Callback(e: Event) {
    e.Connected? || e.Disconnected? || e.TimerGone?
  }

  ghost predicate Callbacks(events: seq<Event>) {
    forall i :: 0 <= i < |events| ==> Callback(events[i])
  }

  ghost function Clients(q: State, id: SessionId): nat {
    if id in q.counts then q.counts[id] else 0
  }

  /** Connections of a session less its disconnections. */
  ghost function Balance(events: seq<Event>, id: SessionId): int
    decreases |events|
  {
    if events == [] then 0
    else
      var e := events[|events| - 1];
      Balance(events[..|events| - 1], id)
      + (if e == Connected(id) then 1 else if e == Disconnected(id) then -1 else 0)
  }

  /** The grace period is off: a client came, or its watcher ended. */
  ghost predicate Cancels(e: Event, id: SessionId) {
    e == Connected(id) || e == TimerGone(id)
  }

  /** A disconnection, and nothing since that takes the grace period away. */
  ghost predicate Leaves(events: seq<Event>, id: SessionId) {
    exists i :: 0 <= i < |events| && events[i] == Disconnected(id)
             && forall j :: i < j < |events| ==> !Cancels(events[j], id)
  }

  /** The largest balance of any end of the callbacks, and of all of them on top of what was there. */
  ghost predicate IsPeak(n: int, before: nat, events: seq<Event>, id: SessionId) {
    && (forall k :: 0 <= k <= |events| ==> Balance(events[k..], id) <= n)
    && before + Balance(events, id) <= n
    && (n == before + Balance(events, id) || exists k :: 0 <= k <= |events| && n == Balance(events[k..], id))
  }

  /** Spurious disconnections never make a count negative, nor spoil a later one. */
  lemma {:induction false} ClientsArePeak(q: State, id: SessionId, events: seq<Event>)
    requires q.recoverer.None? && id in q.owned && Callbacks(events)
    ensures var q' := Run(q, events); q' == q.(counts := q'.counts, timers := q'.timers)
    ensures IsPeak(Clients(Run(q, events), id), Clients(q, id), events, id)
    decreases |events|
  {
    if events == [] {
      assert Balance(events[0..], id) == 0;
    } else {
      var es, e := events[..|events| - 1], events[|events| - 1];
      ClientsArePeak(q, id, es);
      CallbackStep(Run(q, es), id, e);
      PeakGrows(Clients(Run(q, es), id), Clients(q, id), es, e, id);
      assert events == es + [e];
    }
  }

  lemma CallbackStep(q: State, id: SessionId, e: Event)
    requires q.recoverer.None? && id in q.owned && Callback(e)
    ensures var q' := Apply(q, e);
      && q' == q.(counts := q'.counts, timers := q'.timers)
      && Clients(q', id) == After(Clients(q, id), e, id)
      && (id in q'.timers <==> !Cancels(e, id) && (id in q.timers || (e == Disconnected(id) && Clients(q', id) == 0)))
  {
    hide StepConnected, StepDisconnected, StepTask, StepOpen, Spawn, Boot, Lists;
    match e
    case Connected(other) => ConnectedStep(q, id, other);
    case Disconnected(other) => DisconnectedStep(q, id, other);
    case TimerGone(other) =>
  }

  lemma ConnectedStep(q: State, id: SessionId, other: SessionId)
    requires q.recoverer.None? && id in q.owned
    ensures var q' := StepConnected(q, other);
      && q' == q.(counts := q'.counts, timers := q'.timers)
      && Clients(q', id) == Clients(q, id) + (if other == id then 1 else 0)
      && (id in q'.timers <==> other != id && id in q.timers)
  {
    if other in q.owned {
      assert StepConnected(q, other)
          == q.(timers := q.timers - {other}, counts := q.counts[other := Clients(q, other) + 1]);
    }
  }

  lemma DisconnectedStep(q: State, id: SessionId, other: SessionId)
    requires q.recoverer.None? && id in q.owned
    ensures var q' := StepDisconnected(q, other);
      && q' == q.(counts := q'.counts, timers := q'.timers)
      && Clients(q', id) == (if other == id && Clients(q, id) > 0 then Clients(q, id) - 1 else Clients(q, id))
      && (id in q'.timers <==> id in q.timers || (other == id && Clients(q', id) == 0))
  {
    if other in q.owned {
      var n := Clients(q, other);
      assert StepDisconnected(q, other)
          == q.(counts := if n > 0 then q.counts[other := n - 1] else q.counts,
                timers := if n <= 1 then q.timers + {other} else q.timers);
    } else {
      assert StepDisconnected(q, other) == q.(timers := q.timers - {other}, counts := q.counts - {other});
    }
  }

  ghost function After(n: nat, e: Event, id: SessionId): nat {
    if e == Connected(id) then n + 1 else if e == Disconnected(id) && n > 0 then n - 1 else n
  }

  lemma PeakGrows(n: nat, before: nat, es: seq<Event>, e: Event, id: SessionId)
    requires IsPeak(n, before, es, id)
    ensures IsPeak(After(n, e, id), before, es + [e], id)
  {
    var events := es + [e];
    var more := if e == Connected(id) then 1 else if e == Disconnected(id) then -1 else 0;
    assert events[..|es|] == es;
    assert es[|es|..] == [] && events[|events|..] == [];
    forall k | 0 <= k <= |es| ensures Balance(events[k..], id) == Balance(es[k..], id) + more {
      assert events[k..] == es[k..] + [e] && (es[k..] + [e])[..|es[k..]|] == es[k..];
    }
    if n + more < 0 {
      assert After(n, e, id) == Balance(events[|events|..], id);
    }
  }

  /** The grace period runs exactly for a session its last client has left since, or that had it all along. */
  lemma {:induction false} TimersExactly(q: State, id: SessionId, events: seq<Event>)
    requires q.recoverer.None? && id in q.owned && Callbacks(events)
    ensures var q' := Run(q, events);
      id in q'.timers <==>
        || (id in q.timers && forall j :: 0 <= j < |events| ==> !Cancels(events[j], id))
        || (Leaves(events, id) && Clients(q', id) == 0)
    decreases |events|
  {
    if events != [] {
      var es, e := events[..|events| - 1], events[|events| - 1];
      TimersExactly(q, id, es);
      ClientsArePeak(q, id, es);
      CallbackStep(Run(q, es), id, e);
      LeavesGrows(es, e, id);
      assert events == es + [e];
    }
  }

  lemma LeavesGrows(es: seq<Event>, e: Event, id: SessionId)
    ensures Leaves(es + [e], id) <==> e == Disconnected(id) || (Leaves(es, id) && !Cancels(e, id))
  {
    var events := es + [e];
    if e == Disconnected(id) {
      assert events[|es|] == Disconnected(id);
    } else if Leaves(es, id) && !Cancels(e, id) {
      var i :| 0 <= i < |es| && es[i] == Disconnected(id) && forall j :: i < j < |es| ==> !Cancels(es[j], id);
      assert events[i] == Disconnected(id) && forall j :: i < j < |events| ==> !Cancels(events[j], id);
    } else if Leaves(events, id) {
      var i :| 0 <= i < |events| && events[i] == Disconnected(id)
            && forall j :: i < j < |events| ==> !Cancels(events[j], id);
      assert i < |es| && !Cancels(events[|es|], id);
      assert es[i] == Disconnected(id);
      forall j | i < j < |es| ensures !Cancels(es[j], id) { assert es[j] == events[j]; }
    }
  }
}
