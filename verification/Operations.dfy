/** What the operations of the session service do when no other task interferes, as functions of the
    answers their awaits get. */
module Operations {
  import opened Wrappers
  import opened Records
  import opened Database

  /** How one await ends. A statement cannot fail; for it, Failed counts as Done. */
  datatype Await = Done | Failed | Cancelled

  /** What the remote helper is asked. */
  datatype Call =
    | CallStart(id: SessionId)
    | CallInspect(id: SessionId)
    | CallStop(id: SessionId)
    | CallRemove(id: SessionId)

  // ---- _do_open ----------------------------------------------------------

  datatype OpenPoint =
    | ValidateStage | Connect | InstallStage | Install | StartStage | StartRemote | PersistIdentity
    | TunnelStage | Forward | PersistTunnel | VerifyStage | Health | Publish | ReadBack
    // the clean-up's own awaits
    | Judge | CloseListener | ForgetTunnel | StopRemote | ForgetRemote | CloseChain | Reread | Mark

  type OpenAnswers = OpenPoint -> Await

  predicate NeverFails(p: OpenPoint) {
    || p.ValidateStage? || p.InstallStage? || p.StartStage? || p.PersistIdentity? || p.TunnelStage?
    || p.PersistTunnel? || p.VerifyStage? || p.Publish? || p.ReadBack?
  }

  predicate Passes(a: OpenAnswers, p: OpenPoint) {
    a(p) == Done || (a(p) == Failed && NeverFails(p))
  }

  predicate Connected(a: OpenAnswers) {
    Passes(a, ValidateStage) && Passes(a, Connect)
  }

  predicate AsksToStart(a: OpenAnswers) {
    Connected(a) && Passes(a, InstallStage) && Passes(a, Install) && Passes(a, StartStage)
  }

  predicate RemoteStarted(a: OpenAnswers) {
    AsksToStart(a) && Passes(a, StartRemote)
  }

  predicate IdentityPersisted(a: OpenAnswers) {
    RemoteStarted(a) && Passes(a, PersistIdentity)
  }

  predicate Forwarded(a: OpenAnswers) {
    IdentityPersisted(a) && Passes(a, TunnelStage) && Passes(a, Forward)
  }

  predicate Installed(a: OpenAnswers) {
    Forwarded(a) && Passes(a, PersistTunnel)
  }

  /** mark_ready is issued; from then on a cancellation finds the session READY. */
  predicate Published(a: OpenAnswers) {
    Installed(a) && Passes(a, VerifyStage) && Passes(a, Health)
  }

  /** What the failing await of an open raises: connecting may raise any code, a later call none of the four. */
  datatype OpenCodes = OpenCodes(connect: ErrorCode, later: LaterCode)

  predicate FailsToConnect(a: OpenAnswers) {
    a(ValidateStage) != Cancelled && a(Connect) == Failed
  }

  predicate FailsLater(a: OpenAnswers) {
    || (Connected(a) && a(InstallStage) != Cancelled && a(Install) == Failed)
    || (AsksToStart(a) && a(StartRemote) == Failed)
    || (IdentityPersisted(a) && a(TunnelStage) != Cancelled && a(Forward) == Failed)
    || (Installed(a) && a(VerifyStage) != Cancelled && a(Health) == Failed)
  }

  /** The error an open that stops before mark_ready is to record. */
  function OpenCode(a: OpenAnswers, codes: OpenCodes): ErrorCode {
    if FailsToConnect(a) then codes.connect else if FailsLater(a) then codes.later else InternalError
  }

  /** How far an open gets: a call must be answered, a statement must not be cancelled. */
  lemma OpenReaches(a: OpenAnswers)
    ensures Connected(a) <==> a(ValidateStage) != Cancelled && a(Connect) == Done
    ensures AsksToStart(a) <==>
      Connected(a) && a(InstallStage) != Cancelled && a(Install) == Done && a(StartStage) != Cancelled
    ensures IdentityPersisted(a) <==> AsksToStart(a) && a(StartRemote) == Done && a(PersistIdentity) != Cancelled
    ensures Installed(a) <==>
      IdentityPersisted(a) && a(TunnelStage) != Cancelled && a(Forward) == Done && a(PersistTunnel) != Cancelled
    ensures Published(a) <==> Installed(a) && a(VerifyStage) != Cancelled && a(Health) == Done
  {
  }

  lemma OpenOrder(a: OpenAnswers)
    ensures Published(a) ==> Installed(a)
    ensures Installed(a) ==> IdentityPersisted(a)
    ensures IdentityPersisted(a) ==> RemoteStarted(a)
    ensures RemoteStarted(a) ==> AsksToStart(a)
    ensures AsksToStart(a) ==> Connected(a)
  {
  }

  /** A second cancellation arrives while a failed open is still being cleaned up. It does no harm once
      mark_ready is issued, while a watcher is being cancelled, or while the error is being recorded. */
  predicate CleanUpCut(a: OpenAnswers) {
    && !Published(a)
    && (|| (Installed(a)
            && (a(CloseListener) == Cancelled || (a(CloseListener) == Done && a(ForgetTunnel) == Cancelled)))
        || (RemoteStarted(a)
            && (a(StopRemote) == Cancelled
                || (a(StopRemote) == Done && IdentityPersisted(a) && a(ForgetRemote) == Cancelled)))
        || (Connected(a) && a(CloseChain) == Cancelled)
        || a(Reread) == Cancelled)
  }

  // ---- _reattach_existing_session ----------------------------------------

  datatype AttachPoint =
    | TakeLock | Freshen                    // only when every attempt takes the alias lock
    | BeginRow | Dial | Inspect | RemoveRemote | Reforward | Recheck | CompleteRow | Refetch
    | HangUp | AwaitListener                // _close_tunnel_resources: the SSH chain, then the listener

  type AttachAnswers = AttachPoint -> Await

  /** What other tasks left of the session while the alias lock was free: its row, if any, and whether tunnel
      resources of it are owned. An attempt looks at nothing else that others write. */
  datatype Meanwhile = Nothing | Touched(row: Option<Row>, held: bool)

  /** One attempt: its answers, the inspection and port it meets, whether its forward listener can be told to
      stop, and, for the reconnect loop, what happened before it, whether a cancellation in it comes from the
      deadline, how long it takes and how much a sleep after it overruns. */
  datatype Try = Try(
    answer: AttachAnswers, inspection: Inspection, port: int, listenerStops: bool, meanwhile: Meanwhile,
    byDeadline: bool, took: real, overslept: real)

  datatype AttachResult = Attached | Unavailable(why: Records.Unavailable) | Broken | Interrupted

  function NotDone(await: Await): AttachResult {
    if await == Cancelled then Interrupted else Broken
  }

  /** What the attempt raises before its resources are installed; None if it installs them. A statement's
      Failed at CompleteRow means that another task closed the session first. */
  function RaisedBeforeInstall(row: Row, t: Try): Option<AttachResult> {
    if t.answer(Inspect) != Done then Some(NotDone(t.answer(Inspect)))
    else
      match IdentityFromInspection(row, t.inspection)
      case Err(Absent) =>
        Some(if t.answer(RemoveRemote) == Done then Unavailable(Absent) else NotDone(t.answer(RemoveRemote)))
      case Err(why) => Some(Unavailable(why))
      case Ok(_) =>
        if t.answer(Reforward) != Done then Some(NotDone(t.answer(Reforward)))
        else if t.answer(Recheck) != Done then Some(NotDone(t.answer(Recheck)))
        else
          match t.answer(CompleteRow)
          case Cancelled => Some(Interrupted)
          case Failed => Some(Unavailable(NotEligible))
          case Done => None
  }

  /** The attempt opened a forward. */
  predicate Relistens(row: Row, t: Try) {
    t.answer(Inspect) == Done && IdentityFromInspection(row, t.inspection).Ok? && t.answer(Reforward) == Done
  }

  /** How _close_tunnel_resources ends: the listener is told to stop, the SSH chain is closed, and a listener
      that was told is awaited. An error of one does not keep the next from being tried. */
  function TunnelClosing(listener: bool, t: Try): Await {
    var awaits := listener && t.listenerStops;
    if t.answer(HangUp) == Cancelled || (awaits && t.answer(AwaitListener) == Cancelled) then Cancelled
    else if t.answer(HangUp) == Failed || (listener && (!awaits || t.answer(AwaitListener) == Failed)) then Failed
    else Done
  }

  /** Closing the attempt's resources: an error replaces an error on its way out, but not a cancellation. */
  function AfterClosing(raised: AttachResult, closing: Await): AttachResult {
    match closing
    case Done => raised
    case Failed => if raised == Interrupted then Interrupted else Broken
    case Cancelled => Interrupted
  }

  /** The attempt gets as far as opening a chain. */
  predicate Dials(rows: Table, id: SessionId, held: bool, t: Try) {
    !held && t.answer(BeginRow) != Cancelled && Recoverable(rows, id)
  }

  predicate OpensChain(rows: Table, id: SessionId, held: bool, t: Try) {
    Dials(rows, id, held, t) && t.answer(Dial) == Done
  }

  /** All that an attempt must meet to install its resources. */
  predicate Installs(rows: Table, id: SessionId, row: Row, held: bool, t: Try) {
    && !held && id in rows && rows[id].state != Stopping && rows[id].closeReason == None
    && FindsOwn(row, t)
  }

  /** The helper confirms the session's own process, and its forward and the editor work. */
  predicate FindsOwn(row: Row, t: Try) {
    && t.answer(BeginRow) != Cancelled && t.answer(Dial) == Done && t.answer(Inspect) == Done
    && Confirms(t.inspection, row)
    && t.answer(Reforward) == Done && t.answer(Recheck) == Done && t.answer(CompleteRow) == Done
  }

  /** The helper reports nothing running and confirms the removal of what is left, and the chain closes. */
  predicate FindsNothing(t: Try) {
    && t.answer(BeginRow) != Cancelled && t.answer(Dial) == Done && t.answer(Inspect) == Done
    && !t.inspection.running && t.answer(RemoveRemote) == Done && t.answer(HangUp) == Done
  }

  /** Everything succeeds, but a cancellation arrives while the recovery is being completed: the statement takes
      effect, and the chain is closed all the same. */
  predicate ReadyButCut(rows: Table, id: SessionId, row: Row, held: bool, t: Try) {
    && t.answer(CompleteRow) == Cancelled
    && Installs(rows, id, row, held, t.(answer := p => if p == CompleteRow then Done else t.answer(p)))
  }

  /** All that an attempt must meet to find that the session's process is gone. */
  predicate FindsGone(rows: Table, id: SessionId, held: bool, t: Try) {
    && !held && id in rows && rows[id].state != Stopping && rows[id].closeReason == None
    && FindsNothing(t)
  }

  /** A cancellation arrives at an await the attempt reaches, before it installs its resources. */
  predicate CutShort(row: Row, t: Try) {
    || t.answer(Inspect) == Cancelled
    || (t.answer(Inspect) == Done
        && if !t.inspection.running then t.answer(RemoveRemote) == Cancelled
           else
             && Confirms(t.inspection, row)
             && (|| t.answer(Reforward) == Cancelled
                 || (t.answer(Reforward) == Done
                     && (|| t.answer(Recheck) == Cancelled
                         || (t.answer(Recheck) == Done && t.answer(CompleteRow) == Cancelled)))))
  }

  /** `held` says that tunnel resources of the session are still owned. */
  function Attempt(rows: Table, id: SessionId, row: Row, held: bool, t: Try): AttachResult {
    if held then Broken
    else if t.answer(BeginRow) == Cancelled then Interrupted
    else if !Recoverable(rows, id) then Unavailable(NotEligible)
    else if t.answer(Dial) != Done then NotDone(t.answer(Dial))
    else
      match RaisedBeforeInstall(row, t)
      case Some(raised) => AfterClosing(raised, TunnelClosing(Relistens(row, t), t))
      case None => if t.answer(Refetch) == Done then Attached else NotDone(t.answer(Refetch))
  }

  /** The attempt's resources stay in _tunnels because closing them failed. */
  predicate Retains(rows: Table, id: SessionId, row: Row, held: bool, t: Try) {
    && OpensChain(rows, id, held, t) && !Installs(rows, id, row, held, t)
    && TunnelClosing(Relistens(row, t), t) == Failed
  }

  /** A cancellation arrives while the attempt's chain is being closed, or after that failed while its
      listener is awaited. */
  predicate CloseCut(rows: Table, id: SessionId, row: Row, held: bool, t: Try) {
    && OpensChain(rows, id, held, t) && !Installs(rows, id, row, held, t)
    && TunnelClosing(Relistens(row, t), t) == Cancelled && t.answer(HangUp) != Done
  }

  predicate ReachesComplete(rows: Table, id: SessionId, row: Row, held: bool, t: Try) {
    && OpensChain(rows, id, held, t) && t.answer(Inspect) == Done
    && IdentityFromInspection(row, t.inspection).Ok? && t.answer(Reforward) == Done && t.answer(Recheck) == Done
  }

  function AttemptRows(rows: Table, id: SessionId, row: Row, held: bool, t: Try): Table {
    if held then rows
    else
      var begun := BeginRecovery(rows, id);
      if !ReachesComplete(rows, id, row, held, t) then begun
      else if t.answer(CompleteRow) == Failed then MarkStopping(begun, id, UserRequested)
      else CompleteRecovery(begun, id, IdentityFromInspection(row, t.inspection).value, t.port)
  }

  function AttemptCalls(rows: Table, id: SessionId, row: Row, held: bool, t: Try): seq<Call> {
    if !OpensChain(rows, id, held, t) then []
    else if t.answer(Inspect) == Done && IdentityFromInspection(row, t.inspection) == Err(Absent) then
      [CallInspect(id), CallRemove(id)]
    else [CallInspect(id)]
  }

  // ---- what an attempt's end means -----------------------------------------

  /** The resources are installed exactly when nothing is raised first. */
  lemma InstallsUnlessRaised(rows: Table, id: SessionId, row: Row, held: bool, t: Try)
    ensures Installs(rows, id, row, held, t)
            <==> OpensChain(rows, id, held, t) && RaisedBeforeInstall(row, t).None?
    ensures RaisedBeforeInstall(row, t) == Some(Interrupted) <==> CutShort(row, t)
    ensures Relistens(row, t) <==>
      t.answer(Inspect) == Done && Confirms(t.inspection, row) && t.answer(Reforward) == Done
    ensures ReachesComplete(rows, id, row, held, t)
            <==> OpensChain(rows, id, held, t) && Relistens(row, t) && t.answer(Recheck) == Done
  {
    hide IdentityFromInspection, Confirms, TunnelClosing;
    InspectionDecides(row, t.inspection);
    RunsWhenConfirmed(row, t.inspection);
  }

  lemma RunsWhenConfirmed(row: Row, inspection: Inspection)
    ensures Confirms(inspection, row) ==> inspection.running
  {
  }

  /** How an attempt ends, in terms of what it meets. */
  lemma AttemptDecides(rows: Table, id: SessionId, row: Row, held: bool, t: Try)
    ensures var result := Attempt(rows, id, row, held, t);
      && (result == Attached <==> Installs(rows, id, row, held, t) && t.answer(Refetch) == Done)
      && (result == Unavailable(Absent) <==> FindsGone(rows, id, held, t))
      && (result == Interrupted <==>
            !held
            && (|| t.answer(BeginRow) == Cancelled
                || (Dials(rows, id, held, t) && t.answer(Dial) == Cancelled)
                || (OpensChain(rows, id, held, t) && CutShort(row, t))
                || (Installs(rows, id, row, held, t) && t.answer(Refetch) == Cancelled)
                || (OpensChain(rows, id, held, t) && !Installs(rows, id, row, held, t)
                    && TunnelClosing(Relistens(row, t), t) == Cancelled)))
  {
    hide IdentityFromInspection, Confirms, CutShort, TunnelClosing, Relistens;
    InstallsUnlessRaised(rows, id, row, held, t);
    InspectionDecides(row, t.inspection);
    AbsentDecides(row, t);
  }

  lemma AbsentDecides(row: Row, t: Try)
    ensures RaisedBeforeInstall(row, t) == Some(Unavailable(Absent)) <==>
      t.answer(Inspect) == Done && !t.inspection.running && t.answer(RemoveRemote) == Done
    ensures RaisedBeforeInstall(row, t) == Some(Unavailable(Absent)) ==>
      (TunnelClosing(Relistens(row, t), t) == Done <==> t.answer(HangUp) == Done)
    ensures RaisedBeforeInstall(row, t) != Some(Attached)
  {
    hide IdentityFromInspection;
    InspectionDecides(row, t.inspection);
  }

  /** What an attempt does to the table and asks the helper. */
  lemma AttemptLeaves(rows: Table, id: SessionId, row: Row, held: bool, t: Try)
    ensures var after := AttemptRows(rows, id, row, held, t);
      && after.Keys == rows.Keys && after - {id} == rows - {id}
      && (Installs(rows, id, row, held, t) ==>
            after[id] == rows[id].(
              state := Ready, identity := t.inspection.found, localPort := Some(t.port), errorCode := None))
      && (id in rows && after[id] != rows[id] && after[id] != rows[id].(localPort := None) ==>
            && OpensChain(rows, id, held, t) && t.answer(Inspect) == Done && Confirms(t.inspection, row)
            && t.answer(Reforward) == Done && t.answer(Recheck) == Done)
      && (id in rows && rows[id].state != Ready ==>
            (after[id].state == Ready <==> Installs(rows, id, row, held, t) || ReadyButCut(rows, id, row, held, t)))
    ensures AttemptCalls(rows, id, row, held, t)
         == if !OpensChain(rows, id, held, t) then []
            else if t.answer(Inspect) == Done && !t.inspection.running then [CallInspect(id), CallRemove(id)]
            else [CallInspect(id)]
  {
    hide IdentityFromInspection, Confirms;
    InspectionDecides(row, t.inspection);
    RunsWhenConfirmed(row, t.inspection);
  }

  // ---- the reconnect loop ------------------------------------------------

  type Tries = nat -> Try

  /** The record the attempts work on: the caller's, or one that each reads again under the alias lock. */
  datatype Source = Given(row: Row) | Fresh

  /** The rows an attempt finds. */
  function FoundRows(rows: Table, id: SessionId, source: Source, t: Try): Table {
    if source.Given? then rows
    else
      match t.meanwhile
      case Nothing => rows
      case Touched(Some(row), _) => rows[id := row]
      case Touched(None, _) => rows - {id}
  }

  predicate FoundHeld(held: bool, source: Source, t: Try) {
    if source.Fresh? && t.meanwhile.Touched? then t.meanwhile.held else held
  }

  /** What ends an attempt before it starts: it does not get the lock or the record, or the session was
      closed while reconnection was pending. */
  function Barred(rows: Table, id: SessionId, source: Source, t: Try): Option<AttachResult> {
    if source.Given? then None
    else if t.answer(TakeLock) == Cancelled || t.answer(Freshen) == Cancelled then Some(Interrupted)
    else if id !in rows || rows[id].state == Stopping then Some(Unavailable(Closed))
    else None
  }

  function RowFor(rows: Table, id: SessionId, source: Source, t: Try): Row
    requires Barred(rows, id, source, t).None?
  {
    if source.Given? then source.row else rows[id]
  }

  /** What one turn of the loop gives, and the rows, the held flag and the helper calls it leaves. */
  datatype Turn = Turn(result: AttachResult, rows: Table, held: bool, calls: seq<Call>)

  function TakeTurn(before: Table, id: SessionId, source: Source, heldBefore: bool, t: Try): Turn {
    var rows, held := FoundRows(before, id, source, t), FoundHeld(heldBefore, source, t);
    match Barred(rows, id, source, t)
    case Some(result) => Turn(result, rows, held, [])
    case None =>
      var row := RowFor(rows, id, source, t);
      Turn(Attempt(rows, id, row, held, t), AttemptRows(rows, id, row, held, t),
           held || Retains(rows, id, row, held, t) || Installs(rows, id, row, held, t),
           AttemptCalls(rows, id, row, held, t))
  }

  /** The rows and the held flag before the n-th attempt, when all before it failed. */
  function Before(rows: Table, id: SessionId, source: Source, held: bool, tries: Tries, n: nat): (Table, bool) {
    if n == 0 then (rows, held)
    else
      var (r, h) := Before(rows, id, source, held, tries, n - 1);
      var turn := TakeTurn(r, id, source, h, tries(n - 1));
      (turn.rows, turn.held)
  }

  function NthTurn(rows: Table, id: SessionId, source: Source, held: bool, tries: Tries, n: nat): Turn {
    var (r, h) := Before(rows, id, source, held, tries, n);
    TakeTurn(r, id, source, h, tries(n))
  }

  /** The helper calls of the first `n` attempts. */
  function CallsBefore(rows: Table, id: SessionId, source: Source, held: bool, tries: Tries, n: nat): seq<Call> {
    if n == 0 then []
    else
      CallsBefore(rows, id, source, held, tries, n - 1) + NthTurn(rows, id, source, held, tries, n - 1).calls
  }

  lemma OneMoreAttempt(rows: Table, id: SessionId, source: Source, held: bool, tries: Tries, n: nat)
    ensures Before(rows, id, source, held, tries, 0) == (rows, held)
    ensures CallsBefore(rows, id, source, held, tries, 0) == []
    ensures var (r, h) := Before(rows, id, source, held, tries, n);
      var turn := TakeTurn(r, id, source, h, tries(n));
      && NthTurn(rows, id, source, held, tries, n) == turn
      && Before(rows, id, source, held, tries, n + 1) == (turn.rows, turn.held)
      && CallsBefore(rows, id, source, held, tries, n + 1) == CallsBefore(rows, id, source, held, tries, n) + turn.calls
  {
    hide TakeTurn;
  }

  /** How the loop takes an attempt's end: a cancellation by the deadline is a failure. */
  function Settled(result: AttachResult, t: Try): AttachResult {
    if result == Interrupted && t.byDeadline then Broken else result
  }

  /** The n-th attempt at a given record sees a process that is not the session's. */
  predicate SeesMismatch(rows: Table, id: SessionId, row: Row, held: bool, tries: Tries, n: nat) {
    var (r, h) := Before(rows, id, Given(row), held, tries, n);
    && OpensChain(r, id, h, tries(n)) && tries(n).answer(Inspect) == Done
    && IdentityFromInspection(row, tries(n).inspection).Err?
    && IdentityFromInspection(row, tries(n).inspection).error != Absent
  }

  lemma HeldTurn(rows: Table, id: SessionId, row: Row, t: Try)
    ensures TakeTurn(rows, id, Given(row), true, t) == Turn(Broken, rows, true, [])
  {
    hide AttemptRows, Attempt, AttemptCalls, BeginRecovery;
    HeldAttempt(rows, id, row, t);
  }

  lemma HeldAttempt(rows: Table, id: SessionId, row: Row, t: Try)
    ensures Attempt(rows, id, row, true, t) == Broken && AttemptRows(rows, id, row, true, t) == rows
    ensures AttemptCalls(rows, id, row, true, t) == []
  {
  }

  /** While tunnel resources are held, attempts at a given record change nothing and ask nothing. */
  lemma {:induction false} HeldStays(rows: Table, id: SessionId, row: Row, held: bool, tries: Tries, n: nat, m: nat)
    requires n <= m && Before(rows, id, Given(row), held, tries, n).1
    ensures Before(rows, id, Given(row), held, tries, m) == Before(rows, id, Given(row), held, tries, n)
    ensures CallsBefore(rows, id, Given(row), held, tries, m) == CallsBefore(rows, id, Given(row), held, tries, n)
  {
    hide Before, CallsBefore, TakeTurn, NthTurn;
    if n < m {
      HeldStays(rows, id, row, held, tries, n, m - 1);
      OneMoreAttempt(rows, id, Given(row), held, tries, m - 1);
      HeldTurn(Before(rows, id, Given(row), held, tries, m - 1).0, id, row, tries(m - 1));
    }
  }

  /** One turn that sees a mismatch: its forward was never opened, so its chain's close alone decides. */
  lemma MismatchTurn(rows: Table, id: SessionId, row: Row, held: bool, t: Try)
    requires OpensChain(rows, id, held, t) && t.answer(Inspect) == Done
    requires IdentityFromInspection(row, t.inspection).Err?
    requires IdentityFromInspection(row, t.inspection).error != Absent
    ensures var turn := TakeTurn(rows, id, Given(row), held, t);
      && turn.calls == [CallInspect(id)]
      && (t.answer(HangUp) == Done ==> turn.result == Unavailable(IdentityFromInspection(row, t.inspection).error))
      && (t.answer(HangUp) == Failed ==> turn.result == Broken && turn.held)
      && (t.answer(HangUp) == Cancelled ==> turn.result == Interrupted)
  {
    hide AttemptRows, IdentityFromInspection;
  }

  /** After a mismatch: if the attempt's chain closes, that attempt reports the mismatch; if closing fails,
      no later attempt looks at the remote again and all of them break. */
  lemma MismatchDecides(rows: Table, id: SessionId, row: Row, held: bool, tries: Tries, n: nat, m: nat)
    requires SeesMismatch(rows, id, row, held, tries, n) && n < m
    ensures var result := NthTurn(rows, id, Given(row), held, tries, n).result;
      && (tries(n).answer(HangUp) == Done ==>
            result == Unavailable(IdentityFromInspection(row, tries(n).inspection).error))
      && (tries(n).answer(HangUp) == Failed ==>
            && result == Broken
            && NthTurn(rows, id, Given(row), held, tries, m).result == Broken
            && !SeesMismatch(rows, id, row, held, tries, m))
      && (tries(n).answer(HangUp) == Cancelled ==> result == Interrupted)
  {
    hide OpensChain, IdentityFromInspection, TakeTurn;
    var (r, h) := Before(rows, id, Given(row), held, tries, n);
    MismatchTurn(r, id, row, h, tries(n));
    OneMoreAttempt(rows, id, Given(row), held, tries, n);
    if tries(n).answer(HangUp) == Failed {
      HeldStays(rows, id, row, held, tries, n + 1, m);
      HeldSeesNothing(rows, id, row, held, tries, m);
    }
  }

  lemma HeldSeesNothing(rows: Table, id: SessionId, row: Row, held: bool, tries: Tries, m: nat)
    requires Before(rows, id, Given(row), held, tries, m).1
    ensures NthTurn(rows, id, Given(row), held, tries, m).result == Broken
    ensures !SeesMismatch(rows, id, row, held, tries, m)
  {
    hide TakeTurn, Before, IdentityFromInspection;
    HeldTurn(Before(rows, id, Given(row), held, tries, m).0, id, row, tries(m));
  }

  /** Closing the attempt's chain fails, or the deadline interrupts it. */
  predicate CloseSpoils(t: Try) {
    t.answer(HangUp) == Failed || (t.answer(HangUp) == Cancelled && t.byDeadline)
  }

  lemma MismatchAsks(rows: Table, id: SessionId, row: Row, held: bool, tries: Tries, n: nat)
    requires SeesMismatch(rows, id, row, held, tries, n)
    ensures NthTurn(rows, id, Given(row), held, tries, n).calls == [CallInspect(id)]
    ensures IdentityFromInspection(row, tries(n).inspection).Err?
    ensures IdentityFromInspection(row, tries(n).inspection).error != Absent
  {
    hide OpensChain, IdentityFromInspection, TakeTurn;
    var (r, h) := Before(rows, id, Given(row), held, tries, n);
    MismatchTurn(r, id, row, h, tries(n));
  }

  /** How a reconnect loop ends that has seen a mismatch. */
  lemma MismatchSettles(
    rows: Table, id: SessionId, row: Row, held: bool, tries: Tries, n: nat, attempts: nat, outcome: AttachResult)
    requires SeesMismatch(rows, id, row, held, tries, n) && n < attempts
    requires forall k :: 0 <= k < attempts - 1 ==> NthTurn(rows, id, Given(row), held, tries, k).result == Broken
    requires outcome
      == Settled(NthTurn(rows, id, Given(row), held, tries, attempts - 1).result, tries(attempts - 1))
    ensures outcome == Broken <==> CloseSpoils(tries(n))
    ensures outcome == Interrupted || (outcome.Unavailable? && outcome.why != Absent) || outcome == Broken
    ensures outcome != Broken ==> n == attempts - 1
    ensures NthTurn(rows, id, Given(row), held, tries, n).calls == [CallInspect(id)]
  {
    hide SeesMismatch, NthTurn, TakeTurn, Before, IdentityFromInspection;
    MismatchAsks(rows, id, row, held, tries, n);
    MismatchDecides(rows, id, row, held, tries, n, n + 1);
    if n < attempts - 1 { MismatchDecides(rows, id, row, held, tries, n, attempts - 1); }
  }

  // ---- _do_close ---------------------------------------------------------

  datatype ClosePoint =
    | ReadRow | Reach | Ask | Stop | Remove | CloseSsh | WaitListener | ClearTunnel | ClearRemote
    | MarkFailed | DeleteRow

  type CloseAnswers = ClosePoint -> Await

  /** What a close meets besides its answers. */
  datatype Closing = Closing(answer: CloseAnswers, running: bool, listenerStops: bool)

  predicate Uncancelled(c: Closing) {
    forall p: ClosePoint :: c.answer(p) != Cancelled
  }

  /** The helper confirmed that nothing of the session runs, or the pre-remote-failure rule says so. */
  predicate AbsenceConfirmed(row: Row, tunnel: bool, c: Closing) {
    || CanCloseWithoutInspection(row)
    || ((tunnel || c.answer(Reach) == Done)
        && if row.identity.pid.Some? then c.answer(Stop) == Done
           else c.answer(Ask) == Done && (c.running ==> c.answer(Stop) == Done))
  }

  /** Nothing went wrong that the close must report. */
  predicate ClosesCleanly(row: Row, tunnel: bool, listener: bool, c: Closing) {
    && AbsenceConfirmed(row, tunnel, c)
    && (CanCloseWithoutInspection(row) || c.answer(Remove) == Done)
    && ((tunnel || !CanCloseWithoutInspection(row)) ==> c.answer(CloseSsh) == Done)
    && (listener ==> c.listenerStops && c.answer(WaitListener) == Done)
  }

  /** An SSH chain was in use and closing it failed. */
  predicate KeepsChain(row: Row, tunnel: bool, c: Closing) {
    c.answer(CloseSsh) == Failed && (tunnel || (!CanCloseWithoutInspection(row) && c.answer(Reach) == Done))
  }

  function CloseCalls(row: Row, id: SessionId, tunnel: bool, c: Closing): seq<Call> {
    if CanCloseWithoutInspection(row) || !(tunnel || c.answer(Reach) == Done) then []
    else if row.identity.pid.Some? then
      [CallStop(id)] + (if c.answer(Stop) == Done then [CallRemove(id)] else [])
    else if c.answer(Ask) != Done then [CallInspect(id)]
    else if !c.running then [CallInspect(id), CallRemove(id)]
    else [CallInspect(id), CallStop(id)] + (if c.answer(Stop) == Done then [CallRemove(id)] else [])
  }

  datatype CloseResult = NoRow | RowClosed | CloseFailed | CloseInterrupted

  // ---- recover_all -------------------------------------------------------

  /** What looking at an ERROR row with a close reason meets. */
  datatype Probe = Probe(reached: bool, answered: bool, running: bool, removed: bool, closes: bool)

  /** What recovering one row meets. */
  datatype Recovery = Recovery(attach: Try, close: Closing, probe: Probe)

  /** Nothing is cancelled and no other task touches the row. */
  predicate Alone(r: Recovery) {
    && (forall p: AttachPoint :: r.attach.answer(p) != Cancelled)
    && r.attach.answer(CompleteRow) == Done && r.attach.answer(Refetch) == Done
    && Uncancelled(r.close)
  }

  /** The one case in which recover_all counts a failure twice. */
  predicate CountedTwice(row: Row, r: Recovery) {
    && row.state == Error && row.closeReason.Some?
    && r.probe.reached && r.probe.answered && r.probe.running && !r.probe.closes
  }

  /** Startup recovery deletes the row: nothing of the session runs any more. */
  predicate RecoveryDeletes(row: Row, r: Recovery) {
    if row.state == Stopping then ClosesCleanly(row, false, false, r.close)
    else if row.closeReason == None then row.state != Ready && FindsNothing(r.attach)
    else
      && row.state == Error && r.probe.reached && r.probe.answered && !r.probe.running
      && r.probe.removed && r.probe.closes
  }

  predicate RecoveryPublishes(row: Row, r: Recovery) {
    row.state != Stopping && row.closeReason == None && FindsOwn(row, r.attach)
  }

  /** The row stays, but the process it named is known to be gone. */
  predicate RecoveryForgets(row: Row, r: Recovery) {
    || (row.state == Ready && row.closeReason == None && FindsNothing(r.attach))
    || (row.state == Stopping && AbsenceConfirmed(row, false, r.close))
  }

  /** What startup recovery makes of a row: it is deleted, published as its inspected process, or an error. */
  predicate Fate(row: Row, after: Option<Row>, published: bool, r: Recovery) {
    && (after.None? <==> RecoveryDeletes(row, r))
    && (published <==> RecoveryPublishes(row, r))
    && (published ==>
          after == Some(row.(state := Ready, identity := r.attach.inspection.found,
                             localPort := Some(r.attach.port), errorCode := None)))
    && (after.Some? && !published ==>
          && after.value.state == Error && after.value.alias == row.alias && after.value.closeReason == row.closeReason
          && after.value.identity == (if RecoveryForgets(row, r) then NO_IDENTITY else row.identity))
  }

  datatype Report = Report(
    recovered: nat, failed: nat, cleaned: nat, total: nat, errorsRemaining: nat, orphansRemaining: nat)
}
