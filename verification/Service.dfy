/** The session service's operations, run one at a time over the tables they update in place. */
module Service {
  import opened Wrappers
  import opened Records
  import opened Database
  import opened Storage
  import opened Registry
  import opened Operations
  import opened Backoff

  /** A numbered SSH chain and whether a forward listener is kept with it. */
  datatype Tunnel = Tunnel(chain: nat, listener: bool)

  /** What one open has acquired so far. */
  datatype OpenLedger = OpenLedger(
    chain: Option<nat>, remoteStarted: bool, remotePersisted: bool, registryAdded: bool, readyIssued: bool)

  datatype OpenResult = NotListed | Existing(id: SessionId, state: SessionState) | CapacityReached | Started

  datatype RetryResult =
    | NotFound | NotErrored | Refused | Resumed | Reopens | CleanupFailed | RetryInterrupted

  // ---- opening -----------------------------------------------------------------

  /** The row as _do_open's statements leave it, by how far it got. */
  function OpenRows(rows: Table, id: SessionId, a: OpenAnswers, remote: RuntimeIdentity, port: int): Table {
    var started := if RemoteStarted(a) then SetRemoteIdentity(rows, id, remote.Persisted()) else rows;
    var forwarded := if Forwarded(a) then SetTunnelIdentity(started, id, port) else started;
    if Published(a) then MarkReady(forwarded, id) else forwarded
  }

  /** The code of an await that did not pass: a cancellation counts as an internal error. */
  function Raised(await: Await, code: ErrorCode): ErrorCode {
    if await == Cancelled then InternalError else code
  }

  /** The identity a failed open leaves in its row. */
  function LeftIdentity(a: OpenAnswers, remote: RuntimeIdentity): Identity {
    if !RemoteStarted(a) || (IdentityPersisted(a) && a(StopRemote) == Done) then NO_IDENTITY else remote.Persisted()
  }

  predicate Listens(tunnels: map<SessionId, Tunnel>, id: SessionId) {
    id in tunnels && tunnels[id].listener
  }

  predicate TunnelCut(tunnel: bool, a: OpenAnswers) {
    tunnel && (a(CloseListener) == Cancelled || (a(CloseListener) == Done && a(ForgetTunnel) == Cancelled))
  }

  predicate StopsRemote(ledger: OpenLedger, a: OpenAnswers) {
    ledger.remoteStarted && ledger.chain.Some? && a(StopRemote) == Done && ledger.remotePersisted
  }

  predicate RemoteCut(ledger: OpenLedger, a: OpenAnswers) {
    && ledger.remoteStarted && ledger.chain.Some?
    && (a(StopRemote) == Cancelled || (a(StopRemote) == Done && ledger.remotePersisted && a(ForgetRemote) == Cancelled))
  }

  /** Some await of a clean-up that runs is cancelled. */
  predicate CleanUpStops(ledger: OpenLedger, tunnel: bool, a: OpenAnswers) {
    || TunnelCut(tunnel, a) || RemoteCut(ledger, a)
    || (ledger.chain.Some? && a(CloseChain) == Cancelled) || a(Reread) == Cancelled
  }

  function CleanedRows(
    rows: Table, id: SessionId, ledger: OpenLedger, tunnel: bool, a: OpenAnswers, code: ErrorCode): Table
  {
    var untunnelled := if tunnel && a(CloseListener) == Done then ClearTunnelIdentity(rows, id) else rows;
    var forgotten := if StopsRemote(ledger, a) then ClearRemoteIdentity(untunnelled, id) else untunnelled;
    if id in rows && rows[id].state != Ready then MarkError(forgotten, id, code) else forgotten
  }

  /** At most the row of `id` changes, and it keeps its alias. */
  predicate OnlyRow(rows: Table, before: Table, id: SessionId) {
    && id in before && id in rows && rows == before[id := rows[id]] && rows[id].alias == before[id].alias
  }

  lemma MarkKeepsOnlyRow(rows: Table, before: Table, id: SessionId, code: ErrorCode)
    ensures OnlyRow(rows, before, id) ==> OnlyRow(MarkError(rows, id, code), before, id)
    ensures id in MarkError(rows, id, code) <==> id in rows
  {
  }

  lemma ClearsKeepState(rows: Table, id: SessionId)
    ensures id in ClearTunnelIdentity(rows, id) <==> id in rows
    ensures id in ClearRemoteIdentity(rows, id) <==> id in rows
    ensures id in rows ==>
      ClearTunnelIdentity(rows, id)[id].state == ClearRemoteIdentity(rows, id)[id].state == rows[id].state
    ensures id in rows ==>
      ClearTunnelIdentity(rows, id)[id].errorCode == ClearRemoteIdentity(rows, id)[id].errorCode == rows[id].errorCode
    ensures id in rows ==>
      && OnlyRow(rows, rows, id)
      && OnlyRow(ClearTunnelIdentity(rows, id), rows, id)
      && OnlyRow(ClearRemoteIdentity(rows, id), rows, id)
      && OnlyRow(ClearRemoteIdentity(ClearTunnelIdentity(rows, id), id), rows, id)
  {
  }

  lemma CutMeansStops(ledger: OpenLedger, a: OpenAnswers)
    requires ledger.chain.Some? == Connected(a) && ledger.remoteStarted == RemoteStarted(a)
    requires ledger.remotePersisted == IdentityPersisted(a)
    ensures CleanUpCut(a) <==> !Published(a) && CleanUpStops(ledger, Installed(a), a)
    ensures !Published(a) && !CleanUpCut(a) && Connected(a) ==> a(CloseChain) != Cancelled
  {
  }

  /** The row as the try block leaves it. */
  lemma OpenedRow(rows: Table, id: SessionId, a: OpenAnswers, remote: RuntimeIdentity, port: int)
    requires id in rows && rows[id] == NewRow(rows[id].alias)
    ensures var after := OpenRows(rows, id, a, remote, port);
      && id in after && after[id].closeReason == None
      && after[id].identity == (if RemoteStarted(a) then remote.Persisted() else NO_IDENTITY)
      && after[id].state == (if Published(a) then Ready else Starting) && after[id].errorCode == None
      && (Published(a) ==> after[id].localPort == Some(port))
      && OnlyRow(after, rows, id)
  {
  }

  /** And as a clean-up that runs to its end leaves it. */
  lemma CleanedRow(
    rows: Table, id: SessionId, ledger: OpenLedger, a: OpenAnswers, remote: RuntimeIdentity, code: ErrorCode)
    requires id in rows && rows[id].state == Starting
    requires rows[id].identity == if RemoteStarted(a) then remote.Persisted() else NO_IDENTITY
    requires ledger.chain.Some? == Connected(a) && ledger.remoteStarted == RemoteStarted(a)
    requires ledger.remotePersisted == IdentityPersisted(a)
    ensures var after := CleanedRows(rows, id, ledger, Installed(a), a, code);
      && id in after && after[id].state == Error && after[id].errorCode == Some(code)
      && after[id].identity == LeftIdentity(a, remote)
  {
  }

  /** The code of the await at which an open stops. */
  lemma StopCodes(a: OpenAnswers, codes: OpenCodes)
    ensures a(ValidateStage) == Cancelled ==> OpenCode(a, codes) == InternalError
    ensures a(ValidateStage) != Cancelled && a(Connect) != Done ==>
      OpenCode(a, codes) == Raised(a(Connect), codes.connect)
    ensures Connected(a) && a(InstallStage) == Cancelled ==> OpenCode(a, codes) == InternalError
    ensures Connected(a) && a(InstallStage) != Cancelled && a(Install) != Done ==>
      OpenCode(a, codes) == Raised(a(Install), codes.later)
    ensures Connected(a) && a(InstallStage) != Cancelled && a(Install) == Done && a(StartStage) == Cancelled ==>
      OpenCode(a, codes) == InternalError
    ensures AsksToStart(a) && a(StartRemote) != Done ==> OpenCode(a, codes) == Raised(a(StartRemote), codes.later)
    ensures RemoteStarted(a) && (a(PersistIdentity) == Cancelled || a(TunnelStage) == Cancelled) ==>
      OpenCode(a, codes) == InternalError
    ensures IdentityPersisted(a) && a(TunnelStage) != Cancelled && a(Forward) != Done ==>
      OpenCode(a, codes) == Raised(a(Forward), codes.later)
    ensures Forwarded(a) && (a(PersistTunnel) == Cancelled || a(VerifyStage) == Cancelled) ==>
      OpenCode(a, codes) == InternalError
    ensures Installed(a) && a(VerifyStage) != Cancelled && a(Health) != Done ==>
      OpenCode(a, codes) == Raised(a(Health), codes.later)
  {
  }

  /** An open that records one of the four codes never asked the helper to start anything. */
  lemma OnlyConnectingIsPreRemote(a: OpenAnswers, codes: OpenCodes)
    ensures !Published(a) && IsPreRemoteFailure(OpenCode(a, codes)) ==> !AsksToStart(a)
  {
  }

  // ---- reattaching -------------------------------------------------------------

  /** Only a chain that closed is reported closed. */
  lemma HangUpDecides(listener: bool, t: Try)
    ensures t.answer(HangUp) == Cancelled ==> TunnelClosing(listener, t) == Cancelled
    ensures t.answer(HangUp) == Failed ==> TunnelClosing(listener, t) != Done
  {
  }

  /** What a reconnect loop that saw a mismatch at its n-th attempt did. */
  ghost predicate LeftAlone(
    outcome: AttachResult, t: Try, rows: Table, calls: seq<Call>, rows0: Table, calls0: seq<Call>,
    id: SessionId, row: Row, held: bool, tries: Tries, n: nat)
  {
    && (outcome == Broken <==> CloseSpoils(t))
    && (outcome == Broken || outcome == Interrupted || (outcome.Unavailable? && outcome.why != Absent))
    && (outcome != Broken ==>
          && calls == calls0 + CallsBefore(rows0, id, Given(row), held, tries, n) + [CallInspect(id)]
          && rows == Before(rows0, id, Given(row), held, tries, n + 1).0)
  }

  // ---- closing -----------------------------------------------------------------

  /** The chain a close works over: the session's own, or one it opens. */
  function UsedChain(
    tunnels: map<SessionId, Tunnel>, id: SessionId, row: Row, c: Closing, next: nat): (used: Option<nat>)
    ensures used.Some? <==> id in tunnels || (!CanCloseWithoutInspection(row) && c.answer(Reach) == Done)
  {
    if id in tunnels then Some(tunnels[id].chain)
    else if !CanCloseWithoutInspection(row) && c.answer(Reach) == Done then Some(next)
    else None
  }

  /** The chains left open: `owns` says that the chain used was open before. */
  function ChainsLeft(chains: set<nat>, owns: bool, used: Option<nat>, c: Closing): set<nat> {
    if used.None? then chains
    else if c.answer(CloseSsh) == Done then chains - {used.value}
    else if owns then chains
    else chains + {used.value}
  }

  lemma ListenerOnlyHinders(rows: Table, id: SessionId, tunnel: bool, listener: bool, c: Closing)
    ensures id in rows && ClosesCleanly(rows[id], tunnel, true, c) ==> ClosesCleanly(rows[id], tunnel, listener, c)
  {
    hide AbsenceConfirmed, CanCloseWithoutInspection;
  }

  /** Recording the reason does not change whether a close can be clean. */
  lemma SameCleanliness(row: Row, row': Row, tunnel: bool, listener: bool, c: Closing)
    requires row' == row.(state := row'.state, closeReason := row'.closeReason)
    ensures ClosesCleanly(row', tunnel, listener, c) == ClosesCleanly(row, tunnel, listener, c)
    ensures forall id :: CloseCalls(row', id, tunnel, c) == CloseCalls(row, id, tunnel, c)
  {
  }

  /** What was asked after a first part. */
  lemma LaterCalls(first: seq<Call>, second: seq<Call>, third: seq<Call>)
    ensures first <= second <= third ==>
      first <= third && third[|first|..] == second[|first|..] + third[|second|..]
  {
  }

  lemma CloseStartsNothing(row: Row, id: SessionId, tunnel: bool, c: Closing)
    ensures CallStart(id) !in CloseCalls(row, id, tunnel, c)
  {
  }

  lemma CleanCloseRemoves(row: Row, id: SessionId, tunnel: bool, listener: bool, c: Closing)
    requires !CanCloseWithoutInspection(row) && ClosesCleanly(row, tunnel, listener, c)
    ensures CallRemove(id) in CloseCalls(row, id, tunnel, c)
  {
    hide CanCloseWithoutInspection;
  }

  lemma BackToBefore<T>(after: map<SessionId, T>, before: map<SessionId, T>, id: SessionId)
    requires after - {id} == before - {id} && id !in after && id !in before
    ensures after == before
  {
    assert after == after - {id} && before == before - {id};
  }

  // ---- recovering --------------------------------------------------------------

  /** A row recovery left READY with its tunnel and published port, or in ERROR. */
  predicate RecoveredOrError(
    rows: Table, id: SessionId, tunnels: map<SessionId, Tunnel>, targets: map<SessionId, int>)
  {
    id in rows && (rows[id].state == Error || (rows[id].state == Ready && id in tunnels && id in targets))
  }

  function ErrorIds(rows: Table): set<SessionId> {
    set id | id in rows && rows[id].state == Error
  }

  /** Errors whose row still names a remote process. */
  function OrphanIds(rows: Table): set<SessionId> {
    set id | id in rows && rows[id].state == Error && rows[id].identity.pid.Some?
  }

  /** Rows recover_all has not reached are as they were, without tunnel or published port. */
  ghost predicate Untouched(
    order: seq<SessionId>, i: nat, rows: Table, rows0: Table, tunnels: map<SessionId, Tunnel>,
    targets: map<SessionId, int>)
  {
    forall k :: i <= k < |order| ==>
      && order[k] in rows && order[k] in rows0 && rows[order[k]] == rows0[order[k]]
      && order[k] !in tunnels && order[k] !in targets
  }

  /** Rows it has passed are gone, published and READY, or errors. */
  ghost predicate Sorted(
    order: seq<SessionId>, i: nat, rows: Table, ready: set<SessionId>, tunnels: map<SessionId, Tunnel>,
    targets: map<SessionId, int>)
    requires i <= |order|
  {
    && (forall id :: id in ready ==>
          id in order[..i] && id in rows && rows[id].state == Ready && id in tunnels && id in targets)
    && (forall id :: id in order[..i] && id in rows && id !in ready ==> rows[id].state == Error)
    && (forall id :: id in targets ==> id in ready)
  }

  function Twice(rows: Table, order: seq<SessionId>, recoveries: SessionId -> Recovery): nat {
    if order == [] then 0
    else
      var id := order[|order| - 1];
      Twice(rows, order[..|order| - 1], recoveries)
        + (if id in rows && CountedTwice(rows[id], recoveries(id)) then 1 else 0)
  }

  lemma OneRowLess(after: Table, before: Table, id: SessionId)
    requires id in before && after == if id in after then before[id := after[id]] else before - {id}
    ensures |after| == if id in after then |before| else |before| - 1
    ensures after.Keys == if id in after then before.Keys else before.Keys - {id}
  {
    assert after.Keys == if id in after then before.Keys else before.Keys - {id};
  }

  function Elements(order: seq<SessionId>): set<SessionId> {
    set id | id in order
  }

  lemma {:induction false} DistinctLength(order: seq<SessionId>)
    requires forall i, j :: 0 <= i < j < |order| ==> order[i] != order[j]
    ensures |Elements(order)| == |order|
  {
    if order == [] {
      assert Elements(order) == {};
    } else {
      var last, rest := order[|order| - 1], order[..|order| - 1];
      DistinctLength(rest);
      assert order == rest + [last] && last !in rest;
      assert Elements(order) == Elements(rest) + {last};
    }
  }

  lemma ListingLength(rows: Table, order: seq<SessionId>)
    requires Listing(rows, order)
    ensures |order| == |rows|
  {
    DistinctLength(order);
    assert rows.Keys == Elements(order);
  }

  lemma RecoveryStarts(order: seq<SessionId>, rows: Table, recoveries: SessionId -> Recovery)
    requires Listing(rows, order)
    ensures Untouched(order, 0, rows, rows, map[], map[]) && Sorted(order, 0, rows, {}, map[], map[])
    ensures Twice(rows, order[..0], recoveries) == 0 && Fated(order, 0, rows, rows, map[], recoveries)
  {
  }

  lemma NextRow(
    order: seq<SessionId>, i: nat, rows: Table, rows0: Table, ready: set<SessionId>,
    tunnels: map<SessionId, Tunnel>, targets: map<SessionId, int>, recoveries: SessionId -> Recovery)
    requires i < |order| && Listing(rows0, order)
    requires Untouched(order, i, rows, rows0, tunnels, targets) && Sorted(order, i, rows, ready, tunnels, targets)
    ensures var id := order[i];
      && id in order && id in rows && id in rows0 && rows[id] == rows0[id]
      && id !in tunnels && id !in targets && id !in ready
      && Twice(rows0, order[..i + 1], recoveries)
           == Twice(rows0, order[..i], recoveries) + (if CountedTwice(rows[id], recoveries(id)) then 1 else 0)
  {
    hide CountedTwice;
    assert order[..i + 1][..i] == order[..i];
  }

  lemma AllFated(
    order: seq<SessionId>, rows: Table, rows0: Table, targets: map<SessionId, int>, recoveries: SessionId -> Recovery)
    requires Listing(rows0, order) && Fated(order, |order|, rows, rows0, targets, recoveries)
    ensures forall id :: id in rows0 ==> Fate(rows0[id], Lookup(rows, id), id in targets, recoveries(id))
  {
    hide Fate;
    assert order[..|order|] == order;
  }

  lemma AllSorted(
    order: seq<SessionId>, rows: Table, rows0: Table, ready: set<SessionId>,
    tunnels: map<SessionId, Tunnel>, targets: map<SessionId, int>)
    requires Listing(rows0, order) && rows.Keys <= rows0.Keys && Sorted(order, |order|, rows, ready, tunnels, targets)
    ensures forall id :: id in rows ==> RecoveredOrError(rows, id, tunnels, targets)
    ensures forall id :: id in targets ==> id in rows && rows[id].state == Ready
  {
    assert order[..|order|] == order;
  }

  lemma ErrorsAreTheRest(
    order: seq<SessionId>, rows: Table, rows0: Table, ready: set<SessionId>,
    tunnels: map<SessionId, Tunnel>, targets: map<SessionId, int>)
    requires Listing(rows0, order) && rows.Keys <= rows0.Keys && Sorted(order, |order|, rows, ready, tunnels, targets)
    ensures |ErrorIds(rows)| == |rows| - |ready|
  {
    assert order[..|order|] == order;
    assert ready <= rows.Keys;
    assert ErrorIds(rows) == rows.Keys - ready;
  }

  /** One iteration changes its own row, tunnel and port only. */
  ghost predicate StepsAt(
    id: SessionId, rows: Table, rowsBefore: Table,
    tunnels: map<SessionId, Tunnel>, tunnelsBefore: map<SessionId, Tunnel>,
    targets: map<SessionId, int>, targetsBefore: map<SessionId, int>)
  {
    && rows == (if id in rows then rowsBefore[id := rows[id]] else rowsBefore - {id})
    && tunnels - {id} == tunnelsBefore - {id} && targets - {id} == targetsBefore - {id}
  }

  lemma StepElsewhere(
    id: SessionId, rows: Table, rowsBefore: Table,
    tunnels: map<SessionId, Tunnel>, tunnelsBefore: map<SessionId, Tunnel>,
    targets: map<SessionId, int>, targetsBefore: map<SessionId, int>, x: SessionId)
    requires StepsAt(id, rows, rowsBefore, tunnels, tunnelsBefore, targets, targetsBefore) && x != id
    ensures (x in tunnels <==> x in tunnelsBefore) && (x in targets <==> x in targetsBefore)
    ensures (x in rows <==> x in rowsBefore) && (x in rows ==> rows[x] == rowsBefore[x])
  {
    assert x in tunnels - {id} <==> x in tunnelsBefore - {id};
    assert x in targets - {id} <==> x in targetsBefore - {id};
  }

  lemma RestUntouched(
    order: seq<SessionId>, i: nat, rows: Table, rowsBefore: Table, rows0: Table,
    tunnels: map<SessionId, Tunnel>, tunnelsBefore: map<SessionId, Tunnel>,
    targets: map<SessionId, int>, targetsBefore: map<SessionId, int>)
    requires i < |order| && Listing(rows0, order)
    requires StepsAt(order[i], rows, rowsBefore, tunnels, tunnelsBefore, targets, targetsBefore)
    requires Untouched(order, i, rowsBefore, rows0, tunnelsBefore, targetsBefore)
    ensures Untouched(order, i + 1, rows, rows0, tunnels, targets)
  {
    hide StepsAt;
    forall k | i + 1 <= k < |order|
      ensures order[k] in rows && rows[order[k]] == rows0[order[k]] && order[k] !in tunnels && order[k] !in targets
    {
      StepElsewhere(order[i], rows, rowsBefore, tunnels, tunnelsBefore, targets, targetsBefore, order[k]);
    }
  }

  lemma RestSorted(
    order: seq<SessionId>, i: nat, rows: Table, rowsBefore: Table, rows0: Table,
    tunnels: map<SessionId, Tunnel>, tunnelsBefore: map<SessionId, Tunnel>,
    targets: map<SessionId, int>, targetsBefore: map<SessionId, int>, ready: set<SessionId>)
    requires i < |order| && Listing(rows0, order)
    requires StepsAt(order[i], rows, rowsBefore, tunnels, tunnelsBefore, targets, targetsBefore)
    requires Sorted(order, i, rowsBefore, ready, tunnelsBefore, targetsBefore)
    requires order[i] in targets ==> order[i] in rows && rows[order[i]].state == Ready && order[i] in tunnels
    requires order[i] in rows ==> rows[order[i]].state == Error || order[i] in targets
    ensures Sorted(order, i + 1, rows, if order[i] in targets then ready + {order[i]} else ready, tunnels, targets)
  {
    hide StepsAt;
    var id := order[i];
    assert order[..i + 1] == order[..i] + [id];
    forall x | x != id
      ensures (x in tunnels <==> x in tunnelsBefore) && (x in targets <==> x in targetsBefore)
      ensures (x in rows <==> x in rowsBefore) && (x in rows ==> rows[x] == rowsBefore[x])
    {
      StepElsewhere(id, rows, rowsBefore, tunnels, tunnelsBefore, targets, targetsBefore, x);
    }
    assert id !in order[..i];
  }

  /** Rows recover_all has passed met their fate. */
  ghost predicate Fated(
    order: seq<SessionId>, i: nat, rows: Table, rows0: Table, targets: map<SessionId, int>,
    recoveries: SessionId -> Recovery)
    requires i <= |order|
  {
    forall id :: id in order[..i] ==>
      id in rows0 && Fate(rows0[id], Lookup(rows, id), id in targets, recoveries(id))
  }

  lemma RestFated(
    order: seq<SessionId>, i: nat, rows: Table, rowsBefore: Table, rows0: Table,
    tunnels: map<SessionId, Tunnel>, tunnelsBefore: map<SessionId, Tunnel>,
    targets: map<SessionId, int>, targetsBefore: map<SessionId, int>, recoveries: SessionId -> Recovery)
    requires i < |order| && Listing(rows0, order)
    requires StepsAt(order[i], rows, rowsBefore, tunnels, tunnelsBefore, targets, targetsBefore)
    requires Fated(order, i, rowsBefore, rows0, targetsBefore, recoveries)
    requires Fate(rows0[order[i]], Lookup(rows, order[i]), order[i] in targets, recoveries(order[i]))
    ensures Fated(order, i + 1, rows, rows0, targets, recoveries)
  {
    hide StepsAt, Fate;
    assert order[..i + 1] == order[..i] + [order[i]];
    forall id | id in order[..i + 1]
      ensures id in rows0 && Fate(rows0[id], Lookup(rows, id), id in targets, recoveries(id))
    {
      if id != order[i] {
        StepElsewhere(order[i], rows, rowsBefore, tunnels, tunnelsBefore, targets, targetsBefore, id);
      }
    }
  }

  lemma RestSame(after: Table, before: Table, id: SessionId)
    requires after - {id} == before - {id} && id in before
    ensures after == if id in after then before[id := after[id]] else before - {id}
  {
    forall x | x in after && x != id ensures x in before && after[x] == before[x] {
      assert x in after - {id} && (after - {id})[x] == (before - {id})[x];
    }
    forall x | x in before && x != id ensures x in after {
      assert x in before - {id};
    }
  }

  /** What an undisturbed attempt leaves of its row. */
  lemma AliveRows(after: Table, rows: Table, id: SessionId, row: Row, t: Try)
    requires id in rows && rows[id] == row
    requires t.answer(CompleteRow) == Done && t.answer(Refetch) == Done
    requires after == AttemptRows(rows, id, row, false, t)
    ensures id in after && after == rows[id := after[id]]
    ensures Installs(rows, id, row, false, t) ==>
      after[id] == row.(state := Ready, identity := t.inspection.found, localPort := Some(t.port), errorCode := None)
    ensures !Installs(rows, id, row, false, t) ==> after[id] == row.(localPort := after[id].localPort)
    ensures Attempt(rows, id, row, false, t) == Attached <==> Installs(rows, id, row, false, t)
    ensures Attempt(rows, id, row, false, t) == Unavailable(Absent) <==> FindsGone(rows, id, false, t)
  {
    hide IdentityFromInspection, Confirms, Attempt;
    InstallsUnlessRaised(rows, id, row, false, t);
    AttemptDecides(rows, id, row, false, t);
    AttemptLeaves(rows, id, row, false, t);
    InspectionDecides(row, t.inspection);
  }

  // ---- the service -------------------------------------------------------

  class SessionService {
    const db: SessionTable
    const registry: ProxyRegistry
    const capacity: nat
    var owned: set<SessionId>               // _capacity_owned
    var tunnels: map<SessionId, Tunnel>     // _tunnels
    // what the network and the remote helpers have seen
    var chains: set<nat>                    // chains opened and not known to be closed
    var next: nat                           // chains are numbered as they open
    var calls: seq<Call>

    ghost predicate Valid()
      reads this
    {
      forall c :: c in chains ==> c < next
    }

    constructor (db: SessionTable, registry: ProxyRegistry, capacity: nat)
      ensures this.db == db && this.registry == registry && this.capacity == capacity && Valid()
      ensures owned == {} && tunnels == map[] && chains == {} && next == 0 && calls == []
    {
      this.db, this.registry, this.capacity := db, registry, capacity;
      owned, tunnels, chains, next, calls := {}, map[], {}, 0, [];
    }

    method OpenConnection() returns (chain: nat)
      requires Valid()
      modifies this`chains, this`next
      ensures Valid() && chain == old(next) && chain !in old(chains)
      ensures chains == old(chains) + {chain} && next == old(next) + 1
    {
      chain := next;
      chains := chains + {chain};
      next := next + 1;
    }

    // ---- _do_open --------------------------------------------------------

    /** The try block of _do_open. */
    method TryOpen(id: SessionId, a: OpenAnswers, remote: RuntimeIdentity, port: int, codes: OpenCodes)
      returns (ledger: OpenLedger, error: Option<ErrorCode>)
      requires Valid() && id !in registry.targets
      modifies this`chains, this`next, this`tunnels, this`calls, db, registry
      ensures Valid() && next >= old(next)
      ensures ledger == OpenLedger(
        if Connected(a) then Some(old(next)) else None,
        RemoteStarted(a), IdentityPersisted(a), Installed(a), Published(a))
      ensures error.None? <==> Published(a) && Passes(a, Publish) && Passes(a, ReadBack) && id in db.rows
      ensures error.Some? && !Published(a) ==> error.value == OpenCode(a, codes)
      ensures calls == old(calls) + (if AsksToStart(a) then [CallStart(id)] else [])
      ensures chains == if Connected(a) then old(chains) + {old(next)} else old(chains)
      ensures tunnels == if Installed(a) then old(tunnels)[id := Tunnel(old(next), true)] else old(tunnels)
      ensures registry.targets == if Installed(a) then old(registry.targets)[id := port] else old(registry.targets)
      ensures db.rows == OpenRows(old(db.rows), id, a, remote, port)
    {
      hide SetRemoteIdentity, SetTunnelIdentity, MarkReady, OpenCode, Raised;
      StopCodes(a, codes);
      ledger := OpenLedger(None, false, false, false, false);
      if !Passes(a, ValidateStage) { return ledger, Some(InternalError); }
      if !Passes(a, Connect) { return ledger, Some(Raised(a(Connect), codes.connect)); }
      var chain := OpenConnection();
      ledger := ledger.(chain := Some(chain));
      if !Passes(a, InstallStage) { return ledger, Some(InternalError); }
      if !Passes(a, Install) { return ledger, Some(Raised(a(Install), codes.later)); }
      if !Passes(a, StartStage) { return ledger, Some(InternalError); }
      calls := calls + [CallStart(id)];
      if !Passes(a, StartRemote) { return ledger, Some(Raised(a(StartRemote), codes.later)); }
      ledger := ledger.(remoteStarted := true);
      db.SetIdentity(id, remote);
      if !Passes(a, PersistIdentity) { return ledger, Some(InternalError); }
      ledger := ledger.(remotePersisted := true);
      if !Passes(a, TunnelStage) { return ledger, Some(InternalError); }
      if !Passes(a, Forward) { return ledger, Some(Raised(a(Forward), codes.later)); }
      db.SetTunnel(id, port);
      if !Passes(a, PersistTunnel) { return ledger, Some(InternalError); }
      tunnels := tunnels[id := Tunnel(chain, true)];
      var added := registry.Add(id, port);
      ledger := ledger.(registryAdded := added);
      if !Passes(a, VerifyStage) { return ledger, Some(InternalError); }
      if !Passes(a, Health) { return ledger, Some(Raised(a(Health), codes.later)); }
      db.Publish(id);
      ledger := ledger.(readyIssued := true);
      if !Passes(a, Publish) { return ledger, Some(InternalError); }
      if !Passes(a, ReadBack) { return ledger, Some(InternalError); }
      var found := db.GetSession(id);
      return ledger, if found.Some? then None else Some(InternalError);
    }

    /** Clean-up of the listener and registry entry; false when a cancellation cut it short. */
    method ReleaseTunnel(id: SessionId, ledger: OpenLedger, a: OpenAnswers) returns (done: bool, listener: bool)
      modifies this`tunnels, db, registry
      ensures done <==> !TunnelCut(id in old(tunnels), a)
      ensures listener == Listens(old(tunnels), id)
      ensures tunnels == old(tunnels) - {id}
      ensures registry.targets == if ledger.registryAdded then old(registry.targets) - {id} else old(registry.targets)
      ensures db.rows == if id in old(tunnels) && a(CloseListener) == Done then ClearTunnelIdentity(old(db.rows), id)
                         else old(db.rows)
    {
      if ledger.registryAdded { registry.Remove(id); }
      var tunnel := if id in tunnels then Some(tunnels[id]) else None;
      listener := tunnel.Some? && tunnel.value.listener;
      tunnels := tunnels - {id};
      if tunnel.Some? {
        if a(CloseListener) == Cancelled { return false, listener; }
        if a(CloseListener) == Done {
          db.ClearTunnel(id);
          if a(ForgetTunnel) == Cancelled { return false, listener; }
        }
      }
      return true, listener;
    }

    /** Clean-up of the remote process; false when a cancellation cut it short. */
    method StopStarted(id: SessionId, ledger: OpenLedger, a: OpenAnswers) returns (done: bool)
      modifies this`calls, db
      ensures done <==> !RemoteCut(ledger, a)
      ensures db.rows == if StopsRemote(ledger, a) then ClearRemoteIdentity(old(db.rows), id) else old(db.rows)
      ensures calls == old(calls) + (if ledger.remoteStarted && ledger.chain.Some? then [CallStop(id)] else [])
    {
      if ledger.remoteStarted && ledger.chain.Some? {
        calls := calls + [CallStop(id)];
        if a(StopRemote) == Cancelled { return false; }
        if a(StopRemote) == Done && ledger.remotePersisted {
          db.ClearIdentity(id);
          if a(ForgetRemote) == Cancelled { return false; }
        }
      }
      return true;
    }

    /** Clean-up of the SSH chain, kept if closing it fails; false when a cancellation cut it short. */
    method CloseLedgerChain(id: SessionId, ledger: OpenLedger, listener: bool, a: OpenAnswers) returns (done: bool)
      requires Valid()
      modifies this`chains, this`tunnels
      ensures Valid() && (done <==> !(ledger.chain.Some? && a(CloseChain) == Cancelled))
      ensures chains == if ledger.chain.Some? && a(CloseChain) == Done then old(chains) - {ledger.chain.value}
                        else old(chains)
      ensures tunnels == if ledger.chain.Some? && a(CloseChain) == Failed
                         then old(tunnels)[id := Tunnel(ledger.chain.value, listener)] else old(tunnels)
    {
      if ledger.chain.Some? {
        if a(CloseChain) == Cancelled { return false; }
        if a(CloseChain) == Done {
          chains := chains - {ledger.chain.value};
        } else {
          tunnels := tunnels[id := Tunnel(ledger.chain.value, listener)];
        }
      }
      return true;
    }

    /** Clean-up's last step: a row that is not READY becomes an error. */
    method RecordOpenError(id: SessionId, a: OpenAnswers, code: ErrorCode) returns (done: bool)
      modifies db
      ensures done <==> a(Reread) != Cancelled
      ensures db.rows == if done && id in old(db.rows) && old(db.rows)[id].state != Ready
                         then MarkError(old(db.rows), id, code) else old(db.rows)
    {
      if a(Reread) == Cancelled { return false; }
      var existing := db.GetSession(id);
      if existing.Some? && existing.value.state != Ready { db.Fail(id, code); }
      return true;
    }

    /** Clean-up of what was acquired, and the recording of the error. */
    method CleanUp(id: SessionId, ledger: OpenLedger, a: OpenAnswers, code: ErrorCode) returns (done: bool)
      requires Valid()
      modifies this`chains, this`tunnels, this`calls, db, registry
      ensures Valid() && (id in db.rows <==> id in old(db.rows))
      ensures id in old(db.rows) ==> OnlyRow(db.rows, old(db.rows), id)
      ensures tunnels - {id} == old(tunnels) - {id}
      ensures registry.targets == if ledger.registryAdded then old(registry.targets) - {id} else old(registry.targets)
      ensures done <==> !CleanUpStops(ledger, id in old(tunnels), a)
      ensures done ==>
        && db.rows == CleanedRows(old(db.rows), id, ledger, id in old(tunnels), a, code)
        && chains == (if ledger.chain.Some? && a(CloseChain) == Done then old(chains) - {ledger.chain.value}
                      else old(chains))
        && tunnels == (if ledger.chain.Some? && a(CloseChain) == Failed
                       then (old(tunnels) - {id})[id := Tunnel(ledger.chain.value, Listens(old(tunnels), id))]
                       else old(tunnels) - {id})
      ensures !done && id in old(db.rows) ==>
        db.rows[id].state == old(db.rows)[id].state && db.rows[id].errorCode == old(db.rows)[id].errorCode
      ensures calls == old(calls) || calls == old(calls) + [CallStop(id)]
    {
      hide StopsRemote, RemoteCut, TunnelCut, ClearTunnelIdentity, ClearRemoteIdentity, MarkError;
      hide Listens, OnlyRow;
      ClearsKeepState(db.rows, id);
      ClearsKeepState(ClearTunnelIdentity(db.rows, id), id);
      var listener;
      done, listener := ReleaseTunnel(id, ledger, a);
      if !done { return; }
      done := StopStarted(id, ledger, a);
      if !done { return; }
      done := CloseLedgerChain(id, ledger, listener, a);
      if !done { return; }
      MarkKeepsOnlyRow(db.rows, old(db.rows), id, code);
      done := RecordOpenError(id, a, code);
    }

    /** _open_failure_cleanup. A READY row after mark_ready was issued is left alone. */
    method OpenFailureCleanup(id: SessionId, ledger: OpenLedger, a: OpenAnswers, code: ErrorCode) returns (done: bool)
      requires Valid()
      modifies this`chains, this`tunnels, this`calls, db, registry
      ensures Valid()
      ensures ledger.readyIssued && id in old(db.rows) && old(db.rows)[id].state == Ready ==>
        && db.rows == old(db.rows) && registry.targets == old(registry.targets)
        && tunnels == old(tunnels) && chains == old(chains) && (done <==> a(Judge) != Cancelled)
      ensures !ledger.readyIssued ==>
        && (id in db.rows <==> id in old(db.rows))
        && (id in old(db.rows) ==> OnlyRow(db.rows, old(db.rows), id))
        && tunnels - {id} == old(tunnels) - {id}
        && registry.targets == (if ledger.registryAdded then old(registry.targets) - {id} else old(registry.targets))
        && (done <==> !CleanUpStops(ledger, id in old(tunnels), a))
      ensures !ledger.readyIssued && done ==>
        && db.rows == CleanedRows(old(db.rows), id, ledger, id in old(tunnels), a, code)
        && chains == (if ledger.chain.Some? && a(CloseChain) == Done then old(chains) - {ledger.chain.value}
                      else old(chains))
        && tunnels == (if ledger.chain.Some? && a(CloseChain) == Failed
                       then (old(tunnels) - {id})[id := Tunnel(ledger.chain.value, Listens(old(tunnels), id))]
                       else old(tunnels) - {id})
      ensures !ledger.readyIssued && !done && id in old(db.rows) ==>
        db.rows[id].state == old(db.rows)[id].state && db.rows[id].errorCode == old(db.rows)[id].errorCode
      ensures calls == old(calls) || calls == old(calls) + [CallStop(id)]
    {
      hide CleanedRows, CleanUpStops, OnlyRow;
      if ledger.readyIssued {
        if a(Judge) == Cancelled { return false; }
        var found := db.GetSession(id);
        if found.Some? && found.value.state == Ready { return true; }
      }
      done := CleanUp(id, ledger, a, code);
    }

    /** READY, with identity, tunnel and published port all held. */
    ghost predicate HoldsEverything(id: SessionId, remote: RuntimeIdentity, port: int, chain: nat)
      reads this, db, registry
    {
      && id in db.rows && db.rows[id].state == Ready
      && db.rows[id].identity == remote.Persisted() && db.rows[id].localPort == Some(port)
      && id in tunnels && tunnels[id] == Tunnel(chain, true) && chain in chains
      && id in registry.targets && registry.targets[id] == port
    }

    /** ERROR with no published port; the chain this open made is closed, or kept as owned. */
    ghost predicate HoldsNothing(id: SessionId, before: set<nat>)
      reads this, db, registry
    {
      && id in db.rows && db.rows[id].state == Error && id !in registry.targets
      && (if id in tunnels then chains == before + {tunnels[id].chain} else chains == before)
    }

    /** The body of _do_open for a row that open has just inserted under a new id. Whatever fails or is
        cancelled, it ends holding everything or nothing, unless a second cancellation cuts its clean-up;
        then the row stays STARTING. */
    method DoOpen(id: SessionId, a: OpenAnswers, remote: RuntimeIdentity, port: int, codes: OpenCodes)
      returns (ready: bool)
      requires Valid() && id in db.rows && db.rows[id] == NewRow(db.rows[id].alias)
      requires id !in registry.targets && id !in tunnels
      modifies this`chains, this`next, this`tunnels, this`calls, db, registry
      ensures Valid()
      ensures HoldsEverything(id, remote, port, old(next)) || HoldsNothing(id, old(chains)) <==> !CleanUpCut(a)
      ensures HoldsEverything(id, remote, port, old(next)) <==> Published(a)
      ensures OnlyRow(db.rows, old(db.rows), id)
      ensures registry.targets - {id} == old(registry.targets) - {id} && tunnels - {id} == old(tunnels) - {id}
      ensures CleanUpCut(a) ==> id in db.rows && db.rows[id].state == Starting
      ensures !Published(a) && !CleanUpCut(a) ==>
        && (id in tunnels <==> Connected(a) && a(CloseChain) == Failed)
        && db.rows[id].identity == LeftIdentity(a, remote) && db.rows[id].errorCode == Some(OpenCode(a, codes))
      ensures old(calls) <= calls && (CallStart(id) in calls[|old(calls)|..] <==> AsksToStart(a))
      ensures CanCloseWithoutInspection(db.rows[id]) ==> !AsksToStart(a)
      ensures ready <==> Published(a) && Passes(a, Publish) && Passes(a, ReadBack)
    {
      hide CleanUpStops, CleanUpCut, CleanedRows, OpenRows, LeftIdentity, OpenCode;
      hide Published, Installed, Forwarded, IdentityPersisted, RemoteStarted, AsksToStart, Connected;
      OpenOrder(a);
      var ledger, error := TryOpen(id, a, remote, port, codes);
      ready := error.None?;
      OpenedRow(old(db.rows), id, a, remote, port);
      CutMeansStops(ledger, a);
      OnlyConnectingIsPreRemote(a, codes);
      ghost var reached, asked := db.rows, calls;
      if error.Some? {
        if !Published(a) { CleanedRow(reached, id, ledger, a, remote, error.value); }
        var done := OpenFailureCleanup(id, ledger, a, error.value);
      }
      LaterCalls(old(calls), asked, calls);
    }

    // ---- _reattach_existing_session ---------------------------------------

    /** The try block once its chain is open, up to the installation of its resources. */
    method AttemptUntilInstall(id: SessionId, row: Row, t: Try) returns (raised: Option<AttachResult>)
      requires Recoverable(db.rows, id)
      modifies this`calls, db
      ensures raised == RaisedBeforeInstall(row, t)
      ensures calls == old(calls) + (
        if t.answer(Inspect) == Done && IdentityFromInspection(row, t.inspection) == Err(Absent) then
          [CallInspect(id), CallRemove(id)] else [CallInspect(id)])
      ensures db.rows ==
        if !(Relistens(row, t) && t.answer(Recheck) == Done) then old(db.rows)
        else if t.answer(CompleteRow) == Failed then MarkStopping(old(db.rows), id, UserRequested)
        else CompleteRecovery(old(db.rows), id, IdentityFromInspection(row, t.inspection).value, t.port)
    {
      calls := calls + [CallInspect(id)];
      if t.answer(Inspect) != Done { return Some(NotDone(t.answer(Inspect))); }
      var remote := IdentityFromInspection(row, t.inspection);
      if remote.Err? {
        if remote.error == Absent {
          calls := calls + [CallRemove(id)];
          if t.answer(RemoveRemote) != Done { return Some(NotDone(t.answer(RemoveRemote))); }
        }
        return Some(Unavailable(remote.error));
      }
      if t.answer(Reforward) != Done { return Some(NotDone(t.answer(Reforward))); }
      if t.answer(Recheck) != Done { return Some(NotDone(t.answer(Recheck))); }
      if t.answer(CompleteRow) == Failed { db.Stop(id, UserRequested); }   // by another task
      var completed := db.Complete(id, remote.value, t.port);
      if t.answer(CompleteRow) == Cancelled { return Some(Interrupted); }
      if !completed { return Some(Unavailable(NotEligible)); }
      return None;
    }

    /** The chain opened by an attempt is installed and its port published. */
    ghost predicate ChainInstalled(id: SessionId, chain: nat)
      reads this, registry
    {
      chain in chains && id in tunnels && tunnels[id].chain == chain && id in registry.targets
    }

    /** The chain stays owned only because closing it or its listener failed. */
    ghost predicate ChainRetained(id: SessionId, chain: nat)
      reads this, registry
    {
      id in tunnels && tunnels[id].chain == chain && id !in registry.targets
    }

    ghost predicate ChainClosed(id: SessionId, chain: nat)
      reads this, registry
    {
      chain !in chains && id !in tunnels && id !in registry.targets
    }

    /** _close_tunnel_resources for a chain that was just opened. */
    method CloseAttempt(chain: nat, listener: bool, t: Try) returns (closing: Await)
      requires Valid()
      modifies this`chains
      ensures Valid() && closing == TunnelClosing(listener, t)
      ensures chains == if t.answer(HangUp) == Done then old(chains) - {chain} else old(chains)
    {
      var errors := listener && !t.listenerStops;
      match t.answer(HangUp) {
        case Done => chains := chains - {chain};
        case Failed => errors := true;
        case Cancelled => return Cancelled;
      }
      if listener && t.listenerStops {
        if t.answer(AwaitListener) == Cancelled { return Cancelled; }
        if t.answer(AwaitListener) == Failed { errors := true; }
      }
      return if errors then Failed else Done;
    }

    /** _reattach_existing_session. The chain it opens ends installed, closed or retained, unless a
        cancellation arrives while the chain is being closed, or after that failed while the listener is
        awaited; a port is published only with an installed chain. */
    method ReattachExisting(id: SessionId, row: Row, t: Try) returns (result: AttachResult)
      requires Valid() && (id in registry.targets ==> id in tunnels)
      modifies this`chains, this`next, this`tunnels, this`calls, db, registry
      ensures Valid() && (id in registry.targets ==> id in tunnels)
      ensures result == Attempt(old(db.rows), id, row, id in old(tunnels), t)
      ensures db.rows == AttemptRows(old(db.rows), id, row, id in old(tunnels), t)
      ensures calls == old(calls) + AttemptCalls(old(db.rows), id, row, id in old(tunnels), t)
      ensures Installs(old(db.rows), id, row, id in old(tunnels), t) ==>
        && id in db.rows
        && db.rows[id] == old(db.rows)[id].(
             state := Ready, identity := t.inspection.found, localPort := Some(t.port), errorCode := None)
      ensures OpensChain(old(db.rows), id, id in old(tunnels), t) ==>
        && (ChainInstalled(id, old(next)) || ChainClosed(id, old(next)) || ChainRetained(id, old(next))
            <==> !CloseCut(old(db.rows), id, row, id in old(tunnels), t))
        && (ChainInstalled(id, old(next)) <==> Installs(old(db.rows), id, row, id in old(tunnels), t))
        && (ChainRetained(id, old(next)) <==> Retains(old(db.rows), id, row, id in old(tunnels), t))
        && chains == (if !Installs(old(db.rows), id, row, id in old(tunnels), t) && t.answer(HangUp) == Done
                      then old(chains) else old(chains) + {old(next)})
      ensures !OpensChain(old(db.rows), id, id in old(tunnels), t) ==>
        chains == old(chains) && tunnels == old(tunnels) && registry.targets == old(registry.targets)
      ensures registry.targets ==
        if Installs(old(db.rows), id, row, id in old(tunnels), t) then old(registry.targets)[id := t.port]
        else old(registry.targets)
      ensures tunnels ==
        if Installs(old(db.rows), id, row, id in old(tunnels), t) then old(tunnels)[id := Tunnel(old(next), true)]
        else if Retains(old(db.rows), id, row, id in old(tunnels), t) then
          old(tunnels)[id := Tunnel(old(next), Relistens(row, t))]
        else old(tunnels)
    {
      hide TunnelClosing, IdentityFromInspection, Confirms, Relistens;
      InstallsUnlessRaised(db.rows, id, row, id in tunnels, t);
      AttemptLeaves(db.rows, id, row, id in tunnels, t);
      if id in tunnels { return Broken; }
      var begun := db.Begin(id);
      if t.answer(BeginRow) == Cancelled { return Interrupted; }
      if !begun { return Unavailable(NotEligible); }
      if t.answer(Dial) != Done { return NotDone(t.answer(Dial)); }
      var chain := OpenConnection();
      var raised := AttemptUntilInstall(id, row, t);
      if raised.Some? {
        HangUpDecides(Relistens(row, t), t);
        var closing := CloseAttempt(chain, Relistens(row, t), t);
        if closing == Failed { tunnels := tunnels[id := Tunnel(chain, Relistens(row, t))]; }
        return AfterClosing(raised.value, closing);
      }
      tunnels := tunnels[id := Tunnel(chain, true)];
      var added := registry.Add(id, t.port);
      if t.answer(Refetch) != Done { return NotDone(t.answer(Refetch)); }
      return Attached;
    }

    // ---- _reattach_with_retry ---------------------------------------------

    /** What other tasks do to the session while the alias lock is free. */
    method ActElsewhere(id: SessionId, row: Option<Row>, held: bool)
      requires Valid() && (id in registry.targets ==> id in tunnels)
      modifies this`chains, this`next, this`tunnels, db, registry
      ensures Valid() && (id in registry.targets ==> id in tunnels)
      ensures db.rows == if row.Some? then old(db.rows)[id := row.value] else old(db.rows) - {id}
      ensures (id in tunnels <==> held) && tunnels - {id} == old(tunnels) - {id}
    {
      db.rows := if row.Some? then db.rows[id := row.value] else db.rows - {id};
      if !held {
        tunnels := tunnels - {id};
        registry.Remove(id);
      } else if id !in tunnels {
        var chain := OpenConnection();
        tunnels := tunnels[id := Tunnel(chain, false)];
      }
    }

    /** One turn of the loop: with a fresh record, under the alias lock. */
    method AttemptOnce(id: SessionId, source: Source, t: Try) returns (result: AttachResult)
      requires Valid() && (id in registry.targets ==> id in tunnels)
      modifies this`chains, this`next, this`tunnels, this`calls, db, registry
      ensures Valid() && (id in registry.targets ==> id in tunnels)
      ensures var turn := TakeTurn(old(db.rows), id, source, id in old(tunnels), t);
        && result == turn.result && db.rows == turn.rows && (id in tunnels) == turn.held
        && calls == old(calls) + turn.calls
      ensures tunnels - {id} == old(tunnels) - {id}
    {
      hide Attempt, AttemptRows, AttemptCalls, OpensChain, Retains, Installs, CloseCut;
      hide ChainInstalled, ChainClosed, ChainRetained;
      match source {
        case Given(row) =>
          result := ReattachExisting(id, row, t);
        case Fresh =>
          if t.meanwhile.Touched? { ActElsewhere(id, t.meanwhile.row, t.meanwhile.held); }
          if t.answer(TakeLock) == Cancelled { return Interrupted; }
          var latest := db.GetSession(id);
          if t.answer(Freshen) == Cancelled { return Interrupted; }
          if latest.None? || latest.value.state == Stopping { return Unavailable(Closed); }
          result := ReattachExisting(id, latest.value, t);
      }
    }

    /** Attempts until one settles or the deadline passes, sleeping between them. */
    method ReattachWithRetry(id: SessionId, source: Source, tries: Tries, started: real, timeout: real)
      returns (result: AttachResult, attempts: nat, sleeps: seq<Sleep>)
      requires Valid() && (id in registry.targets ==> id in tunnels)
      requires timeout >= 5.0 && forall k :: tries(k).took >= 0.0 && tries(k).overslept >= 0.0
      modifies this`chains, this`next, this`tunnels, this`calls, db, registry
      ensures Valid() && (id in registry.targets ==> id in tunnels)
      ensures attempts >= 1 && |sleeps| == attempts - 1
      ensures 5.0 * (attempts as real) < timeout + 18.0
      ensures forall k :: 0 <= k < |sleeps| ==> SleepOk(sleeps[k], k, started + timeout)
      ensures forall k :: 0 <= k < attempts - 1 ==>
        NthTurn(old(db.rows), id, source, id in old(tunnels), tries, k).result == Broken
      ensures result == Settled(
        NthTurn(old(db.rows), id, source, id in old(tunnels), tries, attempts - 1).result, tries(attempts - 1))
      ensures (db.rows, id in tunnels) == Before(old(db.rows), id, source, id in old(tunnels), tries, attempts)
      ensures calls == old(calls) + CallsBefore(old(db.rows), id, source, id in old(tunnels), tries, attempts)
      ensures tunnels - {id} == old(tunnels) - {id}
    {
      hide TakeTurn, Delay, SleepOk, DelaySum, Before, CallsBefore, NthTurn;
      var deadline := started + timeout;
      var now := started;
      var delay := INITIAL_DELAY;
      attempts, sleeps := 0, [];
      SumStep(0);
      ghost var rows0, held0 := db.rows, id in tunnels;
      OneMoreAttempt(rows0, id, source, held0, tries, 0);
      while true
        invariant Valid() && (id in registry.targets ==> id in tunnels)
        invariant |sleeps| == attempts && delay == Delay(attempts) && now >= started
        invariant forall k :: 0 <= k < attempts ==> SleepOk(sleeps[k], k, deadline)
        invariant now >= deadline || now - started >= DelaySum(attempts)
        invariant attempts > 0 ==> DelaySum(attempts - 1) < timeout
        invariant (db.rows, id in tunnels) == Before(rows0, id, source, held0, tries, attempts)
        invariant calls == old(calls) + CallsBefore(rows0, id, source, held0, tries, attempts)
        invariant tunnels - {id} == old(tunnels) - {id}
        invariant forall k :: 0 <= k < attempts ==> NthTurn(rows0, id, source, held0, tries, k).result == Broken
        decreases if now >= deadline then 0 else 1 + (deadline - now).Floor
      {
        SumStep(attempts);
        OneMoreAttempt(rows0, id, source, held0, tries, attempts);
        var t := tries(attempts);
        result := AttemptOnce(id, source, t);
        attempts := attempts + 1;
        now := now + t.took;
        if result == Interrupted && t.byDeadline { result := Broken; break; }
        if result != Broken { break; }
        var remaining := deadline - now;
        if remaining <= 0.0 { break; }
        var pause := if delay <= remaining then delay else remaining;
        SleepIsOk(now, pause, attempts - 1, deadline);
        sleeps := sleeps + [Sleep(now, pause)];
        now := now + pause + t.overslept;
        delay := if delay * 2.0 <= MAX_DELAY then delay * 2.0 else MAX_DELAY;
      }
      AttemptsBound(attempts, timeout);
    }

    // ---- _do_close --------------------------------------------------------

    /** The remote part of _do_close. */
    method StopAndRemove(id: SessionId, row: Row, chain: Option<nat>, c: Closing)
      returns (absent: bool, failed: bool, cut: bool, used: Option<nat>)
      requires Valid()
      modifies this`chains, this`next, this`calls
      ensures Valid() && (cut ==> !Uncancelled(c))
      ensures !cut ==> absent == AbsenceConfirmed(row, chain.Some?, c)
      ensures !cut ==> failed == !(CanCloseWithoutInspection(row)
                                   || (AbsenceConfirmed(row, chain.Some?, c) && c.answer(Remove) == Done))
      ensures !cut && used.None? && absent ==> CanCloseWithoutInspection(row)
      ensures !cut ==> calls == old(calls) + CloseCalls(row, id, chain.Some?, c)
      ensures used == if chain.Some? || CanCloseWithoutInspection(row) then chain
                      else if c.answer(Reach) == Done then Some(old(next)) else None
      ensures chains == if chain.None? && used.Some? then old(chains) + {used.value} else old(chains)
    {
      absent, failed, cut, used := false, false, false, chain;
      if CanCloseWithoutInspection(row) { return true, false, false, used; }
      if chain.None? {
        if c.answer(Reach) != Done { return false, true, c.answer(Reach) == Cancelled, used; }
        var reached := OpenConnection();
        used := Some(reached);
      }
      if row.identity.pid.None? {
        calls := calls + [CallInspect(id)];
        if c.answer(Ask) != Done { return false, true, c.answer(Ask) == Cancelled, used; }
      }
      if row.identity.pid.Some? || c.running {
        calls := calls + [CallStop(id)];
        if c.answer(Stop) != Done { return false, true, c.answer(Stop) == Cancelled, used; }
      }
      absent := true;
      calls := calls + [CallRemove(id)];
      if c.answer(Remove) != Done { return absent, true, c.answer(Remove) == Cancelled, used; }
    }

    /** The part of _do_close that lets go of the tunnel and the remote process. */
    method CloseResources(id: SessionId, row: Row, force: bool, c: Closing)
      returns (absent: bool, errors: bool, cut: bool)
      requires Valid()
      modifies this`chains, this`next, this`calls, this`tunnels, db
      ensures Valid() && (cut ==> !Uncancelled(c))
      ensures !cut ==> absent == AbsenceConfirmed(row, id in old(tunnels), c)
      ensures !cut ==>
        (absent && !errors <==> ClosesCleanly(row, id in old(tunnels), Listens(old(tunnels), id), c))
      ensures !cut ==> calls == old(calls) + CloseCalls(row, id, id in old(tunnels), c)
      ensures !cut ==>
        chains == ChainsLeft(old(chains), id in old(tunnels), UsedChain(old(tunnels), id, row, c, old(next)), c)
      ensures !cut ==>
        tunnels == if !force && KeepsChain(row, id in old(tunnels), c) then
                     (old(tunnels) - {id})[id := Tunnel(UsedChain(old(tunnels), id, row, c, old(next)).value, false)]
                   else old(tunnels) - {id}
      ensures !cut ==>
        db.rows == if Listens(old(tunnels), id) && c.listenerStops && c.answer(WaitListener) == Done then
                     ClearTunnelIdentity(old(db.rows), id)
                   else old(db.rows)
      ensures db.rows == old(db.rows) || db.rows == ClearTunnelIdentity(old(db.rows), id)
      ensures tunnels - {id} == old(tunnels) - {id}
    {
      hide AbsenceConfirmed, CloseCalls, CanCloseWithoutInspection;
      var tunnel := if id in tunnels then Some(tunnels[id]) else None;
      tunnels := tunnels - {id};
      var listener := tunnel.Some? && tunnel.value.listener;
      var failed, used;
      absent, failed, cut, used :=
        StopAndRemove(id, row, if tunnel.Some? then Some(tunnel.value.chain) else None, c);
      errors := failed || (listener && !c.listenerStops);
      if used.Some? {
        if c.answer(CloseSsh) == Done { chains := chains - {used.value}; } else { errors := true; }
      }
      if cut || (used.Some? && c.answer(CloseSsh) == Cancelled) { return absent, errors, true; }
      if listener && c.listenerStops {
        if c.answer(WaitListener) == Cancelled { return absent, errors, true; }
        if c.answer(WaitListener) == Failed {
          errors := true;
        } else {
          db.ClearTunnel(id);
          if c.answer(ClearTunnel) == Cancelled { return absent, errors, true; }
        }
      }
      if used.Some? && c.answer(CloseSsh) == Failed && !force { tunnels := tunnels[id := Tunnel(used.value, false)]; }
    }

    /** The end of _do_close: the row is deleted and its slot released, or the failure is recorded. */
    method Conclude(id: SessionId, absent: bool, errors: bool, force: bool, c: Closing) returns (result: CloseResult)
      modifies this`owned, db, registry
      ensures Uncancelled(c) ==> result == if force || (absent && !errors) then RowClosed else CloseFailed
      ensures result == RowClosed || result == CloseFailed || (result == CloseInterrupted && !Uncancelled(c))
      ensures result == RowClosed ==>
        && (force || (absent && !errors))
        && id !in db.rows && owned == old(owned) - {id} && registry.targets == old(registry.targets) - {id}
      ensures result != RowClosed ==> owned == old(owned) && registry.targets == old(registry.targets)
      ensures result == CloseFailed ==>
        && !force && (errors || !absent)
        && db.rows == MarkError(if absent then ClearRemoteIdentity(old(db.rows), id) else old(db.rows), id, StopFailed)
      ensures db.rows - {id} == old(db.rows) - {id}
    {
      if absent {
        db.ClearIdentity(id);
        if c.answer(ClearRemote) == Cancelled { return CloseInterrupted; }
      }
      if !force && (errors || !absent) {
        db.Fail(id, StopFailed);
        if c.answer(MarkFailed) == Cancelled { return CloseInterrupted; }
        return CloseFailed;
      }
      db.Remove(id);
      if c.answer(DeleteRow) == Cancelled { return CloseInterrupted; }
      owned := owned - {id};
      registry.Remove(id);
      return RowClosed;
    }

    /** _do_close. */
    method DoClose(id: SessionId, force: bool, c: Closing) returns (result: CloseResult)
      requires Valid()
      modifies this, db, registry
      ensures Valid()
      ensures result == RowClosed || result == NoRow ==>
        && id !in db.rows && owned == old(owned) - {id} && registry.targets == old(registry.targets) - {id}
      ensures result == CloseFailed || result == CloseInterrupted ==>
        owned == old(owned) && registry.targets == old(registry.targets)
      ensures result == CloseInterrupted ==> !Uncancelled(c)
      ensures result != CloseInterrupted ==> (result == NoRow <==> id !in old(db.rows))
      ensures result == RowClosed || result == CloseFailed ==>
        var row, tunnel := old(db.rows)[id], id in old(tunnels);
        && (result == RowClosed <==> force || ClosesCleanly(row, tunnel, Listens(old(tunnels), id), c))
        && calls == old(calls) + CloseCalls(row, id, tunnel, c)
        && chains ==
             ChainsLeft(old(chains), id in old(tunnels), UsedChain(old(tunnels), id, row, c, old(next)), c)
        && tunnels ==
             (if !force && KeepsChain(row, tunnel, c) then
                (old(tunnels) - {id})[id := Tunnel(UsedChain(old(tunnels), id, row, c, old(next)).value, false)]
              else old(tunnels) - {id})
      ensures result == CloseFailed ==>
        && id in db.rows
        && db.rows[id].state == Error && db.rows[id].errorCode == Some(StopFailed)
        && db.rows[id].alias == old(db.rows)[id].alias && db.rows[id].closeReason == old(db.rows)[id].closeReason
        && db.rows[id].identity ==
             (if AbsenceConfirmed(old(db.rows)[id], id in old(tunnels), c) then NO_IDENTITY
              else old(db.rows)[id].identity)
      ensures db.rows - {id} == old(db.rows) - {id} && tunnels - {id} == old(tunnels) - {id}
    {
      hide AbsenceConfirmed, CloseCalls, CanCloseWithoutInspection, ClosesCleanly, KeepsChain;
      if c.answer(ReadRow) == Cancelled { return CloseInterrupted; }
      var row := db.GetSession(id);
      if row.None? {
        owned := owned - {id};
        registry.Remove(id);
        return NoRow;
      }
      var absent, errors, cut := CloseResources(id, row.value, force, c);
      if cut { return CloseInterrupted; }
      result := Conclude(id, absent, errors, force, c);
    }

    // ---- retry ------------------------------------------------------------

    /** The reattachment of a retry. If some attempt sees a process that is not the session's, the loop
        breaks exactly when closing that attempt's chain fails or is interrupted by the deadline;
        otherwise that attempt was the last and did no more than inspect. */
    method RetryAttach(id: SessionId, row: Row, tries: Tries, started: real, timeout: real)
      returns (outcome: AttachResult, attempts: nat)
      requires Valid() && id !in registry.targets
      requires timeout >= 5.0 && forall k :: tries(k).took >= 0.0 && tries(k).overslept >= 0.0
      modifies this`chains, this`next, this`tunnels, this`calls, db, registry
      ensures Valid() && attempts >= 1 && tunnels - {id} == old(tunnels) - {id}
      ensures outcome == Settled(
        NthTurn(old(db.rows), id, Given(row), id in old(tunnels), tries, attempts - 1).result, tries(attempts - 1))
      ensures (db.rows, id in tunnels) == Before(old(db.rows), id, Given(row), id in old(tunnels), tries, attempts)
      ensures calls == old(calls) + CallsBefore(old(db.rows), id, Given(row), id in old(tunnels), tries, attempts)
      ensures forall n :: 0 <= n < attempts && SeesMismatch(old(db.rows), id, row, id in old(tunnels), tries, n) ==>
        LeftAlone(outcome, tries(n), db.rows, calls, old(db.rows), old(calls), id, row, id in old(tunnels), tries, n)
    {
      hide Before, CallsBefore, NthTurn, TakeTurn, SeesMismatch, CloseSpoils, SleepOk;
      ghost var rows0, held0, calls0 := db.rows, id in tunnels, calls;
      var sleeps;
      outcome, attempts, sleeps := ReattachWithRetry(id, Given(row), tries, started, timeout);
      forall n | 0 <= n < attempts && SeesMismatch(rows0, id, row, held0, tries, n)
        ensures LeftAlone(outcome, tries(n), db.rows, calls, rows0, calls0, id, row, held0, tries, n)
      {
        MismatchSettles(rows0, id, row, held0, tries, n, attempts, outcome);
        OneMoreAttempt(rows0, id, Given(row), held0, tries, n);
      }
    }

    /** retry, given what get_session_by_alias found; `closing` tells whether it went on to _do_close.
        A mismatch seen leads to no stop, removal or deletion exactly when that attempt's chain closes. */
    method Retry(session: Option<SessionId>, tries: Tries, started: real, timeout: real, c: Closing)
      returns (result: RetryResult, attempts: nat, closing: bool)
      requires Valid() && (session.Some? ==> session.value in db.rows)
      requires timeout >= 5.0 && forall k :: tries(k).took >= 0.0 && tries(k).overslept >= 0.0
      modifies this, db, registry
      ensures Valid()
      ensures session.None? <==> result == NotFound
      ensures session.Some? && old(db.rows)[session.value].state != Error <==> result == NotErrored
      ensures result == NotFound || result == NotErrored ==>
        db.rows == old(db.rows) && registry.targets == old(registry.targets) && attempts == 0 && !closing
      ensures result == Refused || result == Resumed ==> !closing && attempts >= 1
      ensures attempts >= 1 ==>
        var id := session.value;
        var last := NthTurn(old(db.rows), id, Given(old(db.rows)[id]), id in old(tunnels), tries, attempts - 1).result;
        var outcome := Settled(last, tries(attempts - 1));
        && (result == Resumed <==> outcome == Attached)
        && (result == Refused <==> outcome.Unavailable? && outcome.why != Absent)
        && (closing <==> outcome == Broken || outcome == Unavailable(Absent))
      ensures result == Reopens ==> closing && session.Some? && session.value !in db.rows
      ensures session.Some? ==>
        var id := session.value;
        var row, held := old(db.rows)[id], id in old(tunnels);
        forall n | 0 <= n < attempts && SeesMismatch(old(db.rows), id, row, held, tries, n) ::
          && (closing <==> CloseSpoils(tries(n)))
          && (!closing ==>
                && calls == old(calls) + CallsBefore(old(db.rows), id, Given(row), held, tries, n) + [CallInspect(id)]
                && db.rows == Before(old(db.rows), id, Given(row), held, tries, n + 1).0)
      ensures !closing ==> owned == old(owned)
      ensures session.Some? ==>
        var row := old(db.rows)[session.value];
        attempts >= 1 <==> row.state == Error && row.closeReason == None && !CanCloseWithoutInspection(row)
      ensures closing && attempts > 0 && Uncancelled(c) ==>
        var id := session.value;
        var row, held := old(db.rows)[id], id in old(tunnels);
        var (left, kept) := Before(old(db.rows), id, Given(row), held, tries, attempts);
        id in left ==>
          && calls == old(calls) + CallsBefore(old(db.rows), id, Given(row), held, tries, attempts)
                    + CloseCalls(left[id], id, kept, c)
          && (ClosesCleanly(left[id], kept, true, c) ==> result == Reopens)
    {
      hide Before, CallsBefore, SeesMismatch, CloseSpoils, CanCloseWithoutInspection, ClosesCleanly, CloseCalls;
      hide KeepsChain, NthTurn, TakeTurn, AbsenceConfirmed, UsedChain, ChainsLeft;
      attempts, closing := 0, false;
      if session.None? { return NotFound, attempts, closing; }
      var id := session.value;
      var row := db.rows[id];
      if row.state != Error { return NotErrored, attempts, closing; }
      registry.Remove(id);
      if row.closeReason == None && !CanCloseWithoutInspection(row) {
        var outcome;
        outcome, attempts := RetryAttach(id, row, tries, started, timeout);
        match outcome
        case Attached => return Resumed, attempts, closing;
        case Interrupted => return RetryInterrupted, attempts, closing;
        case Unavailable(why) => if why != Absent { return Refused, attempts, closing; }
        case Broken =>
      }
      closing := true;
      ListenerOnlyHinders(db.rows, id, id in tunnels, Listens(tunnels, id), c);
      var closed := DoClose(id, false, c);
      if closed == CloseInterrupted { return RetryInterrupted, attempts, closing; }
      var left := db.GetSession(id);
      if left.Some? { return CleanupFailed, attempts, closing; }
      return Reopens, attempts, closing;
    }

    // ---- recover_all ------------------------------------------------------

    /** The row is gone and its slot released, or both are still there; no other row or slot changes. */
    twostate predicate OnlyThisRow(id: SessionId)
      reads this, db
    {
      && db.rows == (if id in db.rows then old(db.rows)[id := db.rows[id]] else old(db.rows) - {id})
      && owned == (if id in db.rows then old(owned) else old(owned) - {id})
    }

    /** An ERROR row whose close was asked for: deleted once the helper reports nothing running. */
    method RecoverClosing(id: SessionId, row: Row, p: Probe) returns (failed: nat, cleaned: nat)
      requires Valid() && id in db.rows && db.rows[id] == row
      modifies this`chains, this`next, this`tunnels, this`calls, this`owned, db
      ensures Valid() && OnlyThisRow(id) && (id in db.rows ==> db.rows[id] == row)
      ensures cleaned == if id in db.rows then 0 else 1
      ensures id !in db.rows <==> p.reached && p.answered && !p.running && p.removed && p.closes
      ensures failed == if id !in db.rows then 0 else if p.reached && p.answered && p.running && !p.closes then 2 else 1
      ensures tunnels == if p.reached && !p.closes then old(tunnels)[id := Tunnel(old(next), false)] else old(tunnels)
      ensures chains == if p.reached && !p.closes then old(chains) + {old(next)} else old(chains)
    {
      failed, cleaned := 0, 0;
      if !p.reached { return 1, 0; }
      var chain := OpenConnection();
      calls := calls + [CallInspect(id)];
      var remoteAbsent, raised := false, !p.answered;
      if p.answered {
        if p.running {
          failed := failed + 1;
        } else {
          calls := calls + [CallRemove(id)];
          remoteAbsent, raised := p.removed, !p.removed;
        }
      }
      if p.closes {
        chains := chains - {chain};
      } else {
        tunnels := tunnels[id := Tunnel(chain, false)];
        raised := true;
      }
      if raised { return failed + 1, 0; }
      if remoteAbsent {
        db.Remove(id);
        cleaned := cleaned + 1;
        owned := owned - {id};
      }
    }

    /** A row that may still have its process: reattached, deleted when the process is gone, or marked. */
    method RecoverLive(id: SessionId, row: Row, t: Try) returns (recovered: nat, failed: nat, cleaned: nat)
      requires Valid() && id in db.rows && db.rows[id] == row && CanReattach(row)
      requires id !in registry.targets && id !in tunnels
      requires forall p: AttachPoint :: t.answer(p) != Cancelled
      requires t.answer(CompleteRow) == Done && t.answer(Refetch) == Done
      modifies this, db, registry
      ensures Valid() && OnlyThisRow(id)
      ensures tunnels - {id} == old(tunnels) - {id} && registry.targets - {id} == old(registry.targets) - {id}
      ensures recovered + failed + cleaned == 1
      ensures cleaned == 1 <==> id !in db.rows
      ensures id !in db.rows <==> row.state != Ready && row.closeReason == None && FindsNothing(t)
      ensures recovered == 1 <==> id in registry.targets
      ensures id in registry.targets <==> row.closeReason == None && FindsOwn(row, t)
      ensures recovered == 1 ==>
        && id in tunnels && registry.targets[id] == t.port
        && db.rows[id] == row.(state := Ready, identity := t.inspection.found, localPort := Some(t.port),
                               errorCode := None)
      ensures failed == 1 ==>
        && db.rows[id].state == Error && db.rows[id].alias == row.alias && db.rows[id].closeReason == row.closeReason
        && db.rows[id].identity == (if row.closeReason == None && FindsNothing(t) then NO_IDENTITY else row.identity)
        && (row.state != Error ==> db.rows[id].errorCode == Some(RecoveryFailed))
      ensures calls == old(calls) + AttemptCalls(old(db.rows), id, row, false, t)
    {
      hide Attempt, AttemptRows, AttemptCalls, OpensChain, Retains, CloseCut, FindsNothing, FindsOwn;
      var outcome := ReattachExisting(id, row, t);
      AliveRows(db.rows, old(db.rows), id, row, t);
      match outcome {
        case Attached =>
          return 1, 0, 0;
        case Unavailable(why) =>
          if why == Absent && (row.state == Starting || row.state == Error) {
            db.Remove(id);
            owned := owned - {id};
            return 0, 0, 1;
          }
          if why == Absent { db.ClearIdentity(id); }
          db.Fail(id, RecoveryFailed);
        case _ =>
          if row.state != Error { db.Fail(id, RecoveryFailed); }
      }
      return 0, 1, 0;
    }

    /** A STOPPING row: its close is finished. */
    method RecoverStopping(id: SessionId, c: Closing) returns (failed: nat, cleaned: nat)
      requires Valid() && id in db.rows && Uncancelled(c) && id !in registry.targets
      modifies this, db, registry
      ensures Valid() && OnlyThisRow(id)
      ensures tunnels - {id} == old(tunnels) - {id} && registry.targets == old(registry.targets)
      ensures failed + cleaned == 1 && cleaned == (if id in db.rows then 0 else 1)
      ensures id !in db.rows <==>
        ClosesCleanly(old(db.rows)[id], id in old(tunnels), Listens(old(tunnels), id), c)
      ensures id in db.rows ==>
        && db.rows[id].state == Error && db.rows[id].alias == old(db.rows)[id].alias
        && db.rows[id].closeReason == old(db.rows)[id].closeReason
        && db.rows[id].identity == (if AbsenceConfirmed(old(db.rows)[id], id in old(tunnels), c) then NO_IDENTITY
                                    else old(db.rows)[id].identity)
    {
      hide ClosesCleanly, AbsenceConfirmed, KeepsChain, CloseCalls;
      var closed := DoClose(id, false, c);
      RestSame(db.rows, old(db.rows), id);
      if id in db.rows { failed, cleaned := 1, 0; } else { failed, cleaned := 0, 1; }
    }

    /** One iteration of recover_all. */
    method RecoverOne(id: SessionId, row: Row, r: Recovery) returns (recovered: nat, failed: nat, cleaned: nat)
      requires Valid() && id in db.rows && db.rows[id] == row && Alone(r)
      requires id !in registry.targets && id !in tunnels
      modifies this, db, registry
      ensures Valid() && OnlyThisRow(id)
      ensures tunnels - {id} == old(tunnels) - {id} && registry.targets - {id} == old(registry.targets) - {id}
      ensures recovered <= 1 && recovered + failed + cleaned == 1 + (if CountedTwice(row, r) then 1 else 0)
      ensures cleaned == if id in db.rows then 0 else 1
      ensures recovered == 1 <==> id in registry.targets
      ensures recovered == 1 ==> id in db.rows && db.rows[id].state == Ready && id in tunnels && id in registry.targets
      ensures recovered == 0 && id in db.rows ==> db.rows[id].state == Error
      ensures Fate(row, Lookup(db.rows, id), id in registry.targets, r)
    {
      hide Uncancelled, ClosesCleanly, AbsenceConfirmed, FindsNothing, FindsOwn;
      recovered := 0;
      if CanReattach(row) {
        recovered, failed, cleaned := RecoverLive(id, row, r.attach);
      } else if row.state == Stopping {
        failed, cleaned := RecoverStopping(id, r.close);
      } else {
        failed, cleaned := RecoverClosing(id, row, r.probe);
      }
    }

    /** One record of the listing. */
    method RecoverRecord(
      order: seq<SessionId>, i: nat, recoveries: SessionId -> Recovery, ghost rows0: Table, ghost ready: set<SessionId>)
      returns (recovered: nat, failed: nat, cleaned: nat, ghost ready': set<SessionId>)
      requires Valid() && i < |order| && Listing(rows0, order) && Alone(recoveries(order[i]))
      requires Untouched(order, i, db.rows, rows0, tunnels, registry.targets)
      requires Sorted(order, i, db.rows, ready, tunnels, registry.targets)
      requires Fated(order, i, db.rows, rows0, registry.targets, recoveries)
      modifies this, db, registry
      ensures Valid()
      ensures Fated(order, i + 1, db.rows, rows0, registry.targets, recoveries)
      ensures Untouched(order, i + 1, db.rows, rows0, tunnels, registry.targets)
      ensures Sorted(order, i + 1, db.rows, ready', tunnels, registry.targets)
      ensures db.rows.Keys <= old(db.rows.Keys) && |ready'| == |ready| + recovered
      ensures cleaned == |old(db.rows)| - |db.rows|
      ensures old(owned) == old(db.rows.Keys) ==> owned == db.rows.Keys
      ensures recovered + failed + cleaned + Twice(rows0, order[..i], recoveries)
           == 1 + Twice(rows0, order[..i + 1], recoveries)
    {
      hide Untouched, Sorted, Twice, CountedTwice, Listing, Alone, Fated, Fate;
      var id := order[i];
      ghost var rowsBefore, tunnelsBefore, targetsBefore := db.rows, tunnels, registry.targets;
      NextRow(order, i, db.rows, rows0, ready, tunnels, registry.targets, recoveries);
      recovered, failed, cleaned := RecoverOne(id, db.rows[id], recoveries(id));
      RestFated(
        order, i, db.rows, rowsBefore, rows0, tunnels, tunnelsBefore, registry.targets, targetsBefore, recoveries);
      RestUntouched(order, i, db.rows, rowsBefore, rows0, tunnels, tunnelsBefore, registry.targets, targetsBefore);
      RestSorted(
        order, i, db.rows, rowsBefore, rows0, tunnels, tunnelsBefore, registry.targets, targetsBefore, ready);
      ready' := if recovered == 1 then ready + {id} else ready;
      OneRowLess(db.rows, rowsBefore, id);
    }

    /** The loop of recover_all. */
    method RecoverRows(order: seq<SessionId>, recoveries: SessionId -> Recovery)
      returns (recovered: nat, failed: nat, cleaned: nat, ghost ready: set<SessionId>)
      requires Valid() && Listing(db.rows, order) && forall id :: id in order ==> Alone(recoveries(id))
      requires tunnels == map[] && registry.targets == map[] && owned == db.rows.Keys
      modifies this, db, registry
      ensures Valid() && owned == db.rows.Keys && db.rows.Keys <= old(db.rows.Keys)
      ensures Sorted(order, |order|, db.rows, ready, tunnels, registry.targets)
      ensures Fated(order, |order|, db.rows, old(db.rows), registry.targets, recoveries)
      ensures cleaned == |old(db.rows)| - |db.rows| && recovered == |ready|
      ensures recovered + failed + cleaned == |order| + Twice(old(db.rows), order, recoveries)
    {
      hide Untouched, Sorted, Twice, CountedTwice, Listing, Alone, Fated;
      recovered, failed, cleaned, ready := 0, 0, 0, {};
      ghost var rows0 := db.rows;
      RecoveryStarts(order, rows0, recoveries);
      var i := 0;
      while i < |order|
        invariant 0 <= i <= |order| && Valid() && owned == db.rows.Keys && db.rows.Keys <= rows0.Keys
        invariant Untouched(order, i, db.rows, rows0, tunnels, registry.targets)
        invariant Sorted(order, i, db.rows, ready, tunnels, registry.targets)
        invariant Fated(order, i, db.rows, rows0, registry.targets, recoveries)
        invariant cleaned == |rows0| - |db.rows| && recovered == |ready|
        invariant recovered + failed + cleaned == i + Twice(rows0, order[..i], recoveries)
      {
        var r, f, c;
        r, f, c, ready := RecoverRecord(order, i, recoveries, rows0, ready);
        recovered, failed, cleaned := recovered + r, failed + f, cleaned + c;
        i := i + 1;
      }
      assert order[..i] == order;
    }

    /** recover_all, with nothing else running. Afterwards exactly the remaining rows own slots, `cleaned`
        counts the rows removed, and every row listed was cleaned, recovered or is an error that remains. */
    method RecoverAll(order: seq<SessionId>, recoveries: SessionId -> Recovery) returns (report: Report)
      requires Valid() && Listing(db.rows, order) && forall id :: id in order ==> Alone(recoveries(id))
      requires tunnels == map[] && registry.targets == map[]
      modifies this, db, registry
      ensures Valid() && owned == db.rows.Keys && db.rows.Keys <= old(db.rows.Keys)
      ensures report.total == |old(db.rows)| && report.cleaned == |old(db.rows)| - |db.rows|
      ensures report.cleaned + report.recovered + report.errorsRemaining == report.total
      ensures report.failed == report.errorsRemaining + Twice(old(db.rows), order, recoveries)
      ensures report.errorsRemaining == |ErrorIds(db.rows)| && report.orphansRemaining == |OrphanIds(db.rows)|
      ensures forall id :: id in old(db.rows) ==>
        Fate(old(db.rows)[id], Lookup(db.rows, id), id in registry.targets, recoveries(id))
      ensures forall id :: id in db.rows ==> RecoveredOrError(db.rows, id, tunnels, registry.targets)
      ensures forall id :: id in registry.targets ==> id in db.rows && db.rows[id].state == Ready
    {
      hide Sorted, Twice, Listing, Alone, RecoveredOrError, Fate, Fated;
      owned := db.rows.Keys;
      ghost var rows0 := db.rows;
      var recovered, failed, cleaned, ready := RecoverRows(order, recoveries);
      AllSorted(order, db.rows, rows0, ready, tunnels, registry.targets);
      ErrorsAreTheRest(order, db.rows, rows0, ready, tunnels, registry.targets);
      ListingLength(rows0, order);
      AllFated(order, db.rows, rows0, registry.targets, recoveries);
      report := Report(recovered, failed, cleaned, |order|, |ErrorIds(db.rows)|, |OrphanIds(db.rows)|);
    }

    // ---- open and close, start to end --------------------------------------

    method CapacityAcquire(id: SessionId) returns (acquired: bool)
      modifies this`owned
      ensures acquired <==> id in old(owned) || |old(owned)| < capacity
      ensures owned == if acquired then old(owned) + {id} else old(owned)
    {
      if id in owned { return true; }
      if |owned| >= capacity { return false; }
      owned := owned + {id};
      return true;
    }

    /** open under a new id, its start task run to the end; `meanwhile` are the slots that opens of other
        aliases take while the row is being inserted. A refused open changes no row; an open that starts
        adds one row and one slot, never past the capacity. */
    method Open(
      alias: Alias, listed: bool, id: SessionId, meanwhile: set<SessionId>, a: OpenAnswers,
      remote: RuntimeIdentity, port: int, codes: OpenCodes) returns (result: OpenResult)
      requires Valid() && id !in db.rows && id !in owned + meanwhile && id !in tunnels && id !in registry.targets
      modifies this, db, registry
      ensures Valid()
      ensures result == NotListed <==> !listed
      ensures result.Existing? ==> result.id in old(db.rows) && old(db.rows)[result.id].alias == alias
      ensures listed ==> (result.Existing? <==> exists x :: x in old(db.rows) && old(db.rows)[x].alias == alias)
      ensures result == CapacityReached <==>
        listed && !result.Existing? && (|old(owned)| >= capacity || |old(owned) + meanwhile| >= capacity)
      ensures result != Started ==>
        && db.rows == old(db.rows) && registry.targets == old(registry.targets) && tunnels == old(tunnels)
        && chains == old(chains) && (owned == old(owned) || owned == old(owned) + meanwhile)
      ensures result == Started ==>
        && owned == old(owned) + meanwhile + {id} && |owned| <= capacity
        && id in db.rows && db.rows == old(db.rows)[id := db.rows[id]] && db.rows[id].alias == alias
        && registry.targets - {id} == old(registry.targets) - {id} && tunnels - {id} == old(tunnels) - {id}
        && (HoldsEverything(id, remote, port, old(next)) || HoldsNothing(id, old(chains)) <==> !CleanUpCut(a))
        && (CanCloseWithoutInspection(db.rows[id]) ==> !AsksToStart(a))
      ensures old(calls) <= calls
      ensures CallStart(id) in calls[|old(calls)|..] <==> result == Started && AsksToStart(a)
    {
      if !listed { return NotListed; }
      var existing := db.GetSessionByAlias(alias);
      if existing.Some? { return Existing(existing.value, db.rows[existing.value].state); }
      if |owned| >= capacity { return CapacityReached; }
      db.InsertSession(id, alias);
      owned := owned + meanwhile;
      var acquired := CapacityAcquire(id);
      if !acquired {
        db.Remove(id);
        return CapacityReached;
      }
      var ready := DoOpen(id, a, remote, port, codes);
      return Started;
    }

    /** close and the _do_close it starts: the reason is recorded and the port withdrawn before anything
        else, so the row ends deleted, or in ERROR with the reason and its slot. */
    method Close(alias: Alias, reason: CloseReason, force: bool, c: Closing) returns (closed: Option<SessionId>)
      requires Valid() && Uncancelled(c)
      modifies this, db, registry
      ensures Valid()
      ensures closed.None? <==> forall x :: x in old(db.rows) ==> old(db.rows)[x].alias != alias
      ensures closed.None? ==>
        db.rows == old(db.rows) && owned == old(owned) && registry.targets == old(registry.targets)
        && calls == old(calls)
      ensures closed.Some? ==>
        var id := closed.value;
        && id in old(db.rows) && old(db.rows)[id].alias == alias && db.rows - {id} == old(db.rows) - {id}
        && registry.targets == old(registry.targets) - {id}
        && (id !in db.rows <==>
              force || ClosesCleanly(old(db.rows)[id], id in old(tunnels), Listens(old(tunnels), id), c))
        && owned == (if id in db.rows then old(owned) else old(owned) - {id})
        && (id in db.rows ==> db.rows[id].state == Error && db.rows[id].closeReason == Some(reason))
        && calls == old(calls) + CloseCalls(old(db.rows)[id], id, id in old(tunnels), c)
    {
      hide AbsenceConfirmed, CloseCalls, KeepsChain, UsedChain, ChainsLeft;
      closed := db.GetSessionByAlias(alias);
      if closed.None? { return; }
      var id := closed.value;
      ghost var row := db.rows[id];
      db.Stop(id, reason);
      registry.Remove(id);
      SameCleanliness(row, db.rows[id], id in tunnels, Listens(tunnels, id), c);
      var result := DoClose(id, force, c);
    }

    /** An unforced close after an open: once the helper was asked to start the session, its row goes only
        after the helper was asked to remove it. */
    method OpenThenClose(
      alias: Alias, id: SessionId, a: OpenAnswers, remote: RuntimeIdentity, port: int, codes: OpenCodes,
      reason: CloseReason, c: Closing) returns (result: OpenResult)
      requires Valid() && id !in db.rows && id !in owned && id !in tunnels && id !in registry.targets
      requires Uncancelled(c) && forall x :: x in db.rows ==> db.rows[x].alias != alias
      modifies this, db, registry
      ensures result == Started <==> |old(owned)| < capacity
      ensures old(calls) <= calls
      ensures CallStart(id) in calls[|old(calls)|..] && id !in db.rows ==> CallRemove(id) in calls[|old(calls)|..]
    {
      hide ClosesCleanly, CleanUpCut, HoldsEverything, HoldsNothing, Uncancelled, CloseCalls, CanCloseWithoutInspection;
      result := Open(alias, true, id, {}, a, remote, port, codes);
      ghost var row, held, listening := Lookup(db.rows, id), id in tunnels, Listens(tunnels, id);
      ghost var between := calls;
      var closed := Close(alias, reason, false, c);
      LaterCalls(old(calls), between, calls);
      if result == Started {
        assert closed == Some(id);
        if !AsksToStart(a) { CloseStartsNothing(row.value, id, held, c); }
        if id !in db.rows && AsksToStart(a) { CleanCloseRemoves(row.value, id, held, listening, c); }
      }
    }

    /** A forced close undoes an open, whatever happened to it: rows, slots and published ports are as if
        the open had never been. */
    method OpenThenForceClose(
      alias: Alias, id: SessionId, a: OpenAnswers, remote: RuntimeIdentity, port: int, codes: OpenCodes,
      reason: CloseReason, c: Closing) returns (result: OpenResult)
      requires Valid() && id !in db.rows && id !in owned && id !in tunnels && id !in registry.targets
      requires Uncancelled(c) && forall x :: x in db.rows ==> db.rows[x].alias != alias
      modifies this, db, registry
      ensures result == Started <==> |old(owned)| < capacity
      ensures db.rows == old(db.rows) && owned == old(owned) && registry.targets == old(registry.targets)
    {
      hide ClosesCleanly, CleanUpCut, HoldsEverything, HoldsNothing, Uncancelled;
      ghost var rows0, targets0 := db.rows, registry.targets;
      result := Open(alias, true, id, {}, a, remote, port, codes);
      var closed := Close(alias, reason, true, c);
      if result == Started {
        assert closed == Some(id);
        assert db.rows == rows0 by { BackToBefore(db.rows, rows0, id); }
        assert registry.targets == targets0 by { BackToBefore(registry.targets, targets0, id); }
      }
    }
  }

  // ---- where the promises fail -------------------------------------------

  const KNOWN := RuntimeIdentity(7, 8000, "boot", "start", "server")
  const OTHER := RuntimeIdentity(8, 8000, "boot", "start", "server")
  const ERRED := Row(Alias("host"), Error, KNOWN.Persisted(), None, Some(TunnelLost), None)


  /** An open that cannot start the remote process, and is cancelled while its chain is being closed. */
  function CutAnswers(): OpenAnswers {
    (p: OpenPoint) => if p == StartRemote then Failed else if p == CloseChain then Cancelled else Done
  }

  lemma AnswersAreCut()
    ensures CleanUpCut(CutAnswers())
  {
  }

  /** A second cancellation can leave an open STARTING for good: it holds neither everything nor nothing. */
  method CleanUpCutHappens() returns (state: SessionState)
    ensures CleanUpCut(CutAnswers()) && state == Starting
  {
    hide CleanUpCut, CutAnswers, Published, Connected, LeftIdentity, Passes;
    AnswersAreCut();
    var db := new SessionTable(map[1 := NewRow(Alias("host"))]);
    var registry := new ProxyRegistry();
    var service := new SessionService(db, registry, 1);
    var ready := service.DoOpen(1, CutAnswers(), KNOWN, 9000, OpenCodes(InternalError, InternalError));
    state := db.rows[1].state;
  }

  /** A reattachment that finds the editor unhealthy, and is cancelled while its chain is being closed. */
  function CutTry(): Try {
    Try((p: AttachPoint) => if p == Recheck then Failed else if p == HangUp then Cancelled else Done,
        Inspection(true, true, KNOWN.Persisted()), 9000, true, Nothing, false, 1.0, 0.0)
  }

  lemma TryIsCut()
    ensures CloseCut(map[1 := ERRED], 1, ERRED, false, CutTry())
    ensures OpensChain(map[1 := ERRED], 1, false, CutTry()) && CutTry().answer(HangUp) != Done
    ensures !Installs(map[1 := ERRED], 1, ERRED, false, CutTry())
    ensures !Retains(map[1 := ERRED], 1, ERRED, false, CutTry())
  {
    assert IdentityFromInspection(ERRED, CutTry().inspection) == Ok(KNOWN);
  }

  /** Such a cancellation can leave a chain open that no table holds. */
  method CloseCutHappens() returns (chains: set<nat>, held: bool)
    ensures CloseCut(map[1 := ERRED], 1, ERRED, false, CutTry()) && chains == {0} && !held
  {
    hide CloseCut, OpensChain, Installs, Retains, CutTry, Attempt, AttemptRows, AttemptCalls;
    TryIsCut();
    var db := new SessionTable(map[1 := ERRED]);
    var registry := new ProxyRegistry();
    var service := new SessionService(db, registry, 1);
    var result := service.ReattachExisting(1, ERRED, CutTry());
    chains, held := service.chains, 1 in service.tunnels;
  }

  /** A reattachment that is cancelled while its recovery is being completed. */
  function ReadyTry(): Try {
    CutTry().(answer := (p: AttachPoint) => if p == CompleteRow then Cancelled else Done)
  }

  lemma ReadyTryIsCut()
    ensures ReadyButCut(map[1 := ERRED], 1, ERRED, false, ReadyTry())
    ensures OpensChain(map[1 := ERRED], 1, false, ReadyTry()) && ReadyTry().answer(HangUp) == Done
    ensures !Installs(map[1 := ERRED], 1, ERRED, false, ReadyTry())
    ensures !Retains(map[1 := ERRED], 1, ERRED, false, ReadyTry())
  {
  }

  /** Such a cancellation leaves the row READY with no chain, no tunnel and no published port. */
  method ReadyWithoutTunnelHappens() returns (state: SessionState, chains: set<nat>, held: bool, published: bool)
    ensures ReadyButCut(map[1 := ERRED], 1, ERRED, false, ReadyTry())
    ensures state == Ready && chains == {} && !held && !published
  {
    hide CloseCut, OpensChain, Installs, Retains, ReadyTry, Attempt, AttemptRows, AttemptCalls, ReadyButCut;
    ReadyTryIsCut();
    var db := new SessionTable(map[1 := ERRED]);
    var registry := new ProxyRegistry();
    var service := new SessionService(db, registry, 1);
    AttemptLeaves(db.rows, 1, ERRED, false, ReadyTry());
    var result := service.ReattachExisting(1, ERRED, ReadyTry());
    state, chains := db.rows[1].state, service.chains;
    held, published := 1 in service.tunnels, 1 in registry.targets;
  }

  /** A row being closed whose process still runs, met by a chain that does not close. */
  const CLOSING := ERRED.(closeReason := Some(UserRequested))

  function StuckProbe(): Recovery {
    Recovery(StuckTry().(answer := (p: AttachPoint) => Done), Closing((p: ClosePoint) => Done, true, true),
             Probe(true, true, true, false, false))
  }

  /** What startup recovery reports of one row can add up to two. */
  method CountedTwiceHappens() returns (report: Report)
    ensures CountedTwice(CLOSING, StuckProbe())
    ensures report.total == 1 && report.recovered + report.failed + report.cleaned == 2
  {
    var db := new SessionTable(map[1 := CLOSING]);
    var registry := new ProxyRegistry();
    var service := new SessionService(db, registry, 1);
    var recoveries := (id: SessionId) => StuckProbe();
    assert [1][..0] == [] && Twice(db.rows, [], recoveries) == 0;
    report := service.RecoverAll([1], recoveries);
  }

  /** An attempt that sees another process and cannot close its chain. */
  function StuckTry(): Try {
    Try((p: AttachPoint) => if p == HangUp then Failed else Done, Inspection(true, true, OTHER.Persisted()), 9000,
        true, Nothing, false, 60.0, 0.0)
  }

  lemma StuckTryMismatches(tries: Tries)
    requires forall n :: tries(n) == StuckTry()
    ensures SeesMismatch(map[1 := ERRED], 1, ERRED, false, tries, 0) && CloseSpoils(tries(0))
    ensures Before(map[1 := ERRED], 1, Given(ERRED), false, tries, 1) == (map[1 := ERRED], true)
    ensures CallsBefore(map[1 := ERRED], 1, Given(ERRED), false, tries, 1) == [CallInspect(1)]
  {
    assert IdentityFromInspection(ERRED, StuckTry().inspection) == Err(Changed);
    assert BeginRecovery(map[1 := ERRED], 1) == map[1 := ERRED];
    OneMoreAttempt(map[1 := ERRED], 1, Given(ERRED), false, tries, 0);
  }

  /** A mismatch does not always protect the session: when closing the attempt's chain fails, retry goes on
      to stop the process it does not own and to delete the row. */
  method MismatchCanStillDelete() returns (result: RetryResult, calls: seq<Call>)
    ensures result == Reopens && calls == [CallInspect(1), CallStop(1), CallRemove(1)]
  {
    hide SeesMismatch, Before, CallsBefore, CloseSpoils;
    var db := new SessionTable(map[1 := ERRED]);
    var registry := new ProxyRegistry();
    var service := new SessionService(db, registry, 1);
    var tries: Tries := (n: nat) => StuckTry();
    var c := Closing((p: ClosePoint) => Done, true, true);
    StuckTryMismatches(tries);
    var attempts, closing;
    result, attempts, closing := service.Retry(Some(1), tries, 0.0, 60.0, c);
    HeldStays(map[1 := ERRED], 1, ERRED, false, tries, 1, attempts);
    calls := service.calls;
  }
}
