/** Durable session rows and the identity a remote helper reports for a session. */
module Records {
  import opened Wrappers

  datatype Alias = Alias(text: string)
  type SessionId = nat

  datatype SessionState = Starting | Ready | Stopping | Error

  datatype CloseReason = UserRequested | AliasRemoved | GraceExpired

  // The codes that reach a row; `Other` stands for the ones nothing branches on.
  datatype ErrorCode =
    | NoUploadedKeys | NoUploadedKeyAccepted | HostUnknown | HostChanged
    | StopFailed | RecoveryFailed | TunnelLost | InternalError | Other

  /** What is raised once the SSH chain is open: only connecting raises the other four. */
  type LaterCode = code: ErrorCode |
    code != NoUploadedKeys && code != NoUploadedKeyAccepted && code != HostUnknown && code != HostChanged
    witness InternalError

  datatype Identity = Identity(
    pid: Option<int>,
    port: Option<int>,
    bootId: Option<string>,
    startId: Option<string>,
    executable: Option<string>)

  const NO_IDENTITY := Identity(None, None, None, None, None)

  datatype Row = Row(
    alias: Alias,
    state: SessionState,
    identity: Identity,
    localPort: Option<int>,
    errorCode: Option<ErrorCode>,
    closeReason: Option<CloseReason>)

  /** The row `open` inserts. */
  function NewRow(alias: Alias): Row {
    Row(alias, Starting, NO_IDENTITY, None, None, None)
  }

  /** A complete identity, as the helper's start and inspect commands return it. */
  datatype RuntimeIdentity = RuntimeIdentity(
    pid: int, port: int, bootId: string, startId: string, executable: string)
  {
    function Persisted(): Identity {
      Identity(Some(pid), Some(port), Some(bootId), Some(startId), Some(executable))
    }
  }

  /** The helper's inspection answer; a field is None when it is missing or has the wrong type. */
  datatype Inspection = Inspection(running: bool, identityOk: bool, found: Identity)

  datatype Unavailable = Absent | NotConfirmed | Incomplete | Changed | NotEligible | Closed

  /** A persisted field accepts an inspected value if it is unset or equal. */
  predicate Accepts<T(==)>(persisted: Option<T>, inspected: T) {
    persisted == None || persisted == Some(inspected)
  }

  predicate Matches(row: Row, found: RuntimeIdentity) {
    && Accepts(row.identity.pid, found.pid)
    && Accepts(row.identity.port, found.port)
    && Accepts(row.identity.bootId, found.bootId)
    && Accepts(row.identity.startId, found.startId)
    && Accepts(row.identity.executable, found.executable)
  }

  function IdentityFromInspection(row: Row, inspection: Inspection): Result<RuntimeIdentity, Unavailable> {
    if !inspection.running then Err(Absent)
    else if !inspection.identityOk then Err(NotConfirmed)
    else
      match inspection.found
      case Identity(Some(pid), Some(port), Some(bootId), Some(startId), Some(executable)) =>
        if pid <= 0 || port <= 0 || bootId == "" || startId == "" || executable == "" then
          Err(Incomplete)
        else
          var found := RuntimeIdentity(pid, port, bootId, startId, executable);
          if Matches(row, found) then Ok(found) else Err(Changed)
      case _ => Err(Incomplete)
  }

  /** The helper found the session's own process: running, with its identity confirmed and complete, and no
      persisted field of the row is another. */
  predicate Confirms(inspection: Inspection, row: Row) {
    && inspection.running && inspection.identityOk
    && inspection.found.pid.Some? && inspection.found.pid.value > 0
    && inspection.found.port.Some? && inspection.found.port.value > 0
    && inspection.found.bootId.Some? && inspection.found.bootId.value != ""
    && inspection.found.startId.Some? && inspection.found.startId.value != ""
    && inspection.found.executable.Some? && inspection.found.executable.value != ""
    && Within(row.identity, inspection.found)
  }

  /** An inspection is taken for the session's process exactly when it confirms it, and for absence exactly
      when nothing runs. */
  lemma InspectionDecides(row: Row, inspection: Inspection)
    ensures var identity := IdentityFromInspection(row, inspection);
      && (identity.Ok? <==> Confirms(inspection, row))
      && (identity.Ok? ==> identity.value.Persisted() == inspection.found)
      && (identity == Err(Absent) <==> !inspection.running)
  {
  }

  /** recover_all tries to reattach the session. */
  predicate CanReattach(row: Row) {
    row.state == Starting || row.state == Ready || (row.state == Error && row.closeReason == None)
  }

  predicate HasPersistedIdentity(row: Row) {
    row.identity != NO_IDENTITY
  }

  predicate IsPreRemoteFailure(code: ErrorCode) {
    code.NoUploadedKeys? || code.NoUploadedKeyAccepted? || code.HostUnknown? || code.HostChanged?
  }

  /** The pre-remote-failure rule: the open failed before it could reach the remote helper. */
  predicate CanCloseWithoutInspection(row: Row) {
    && row.errorCode.Some?
    && IsPreRemoteFailure(row.errorCode.value)
    && !HasPersistedIdentity(row)
    && row.localPort == None
  }

  /** The rule, spelled out: one of four codes, and nothing that a remote start would have left. */
  lemma PreRemoteExactly(row: Row)
    ensures CanCloseWithoutInspection(row) <==>
      && row.errorCode in {Some(NoUploadedKeys), Some(NoUploadedKeyAccepted), Some(HostUnknown), Some(HostChanged)}
      && row.identity.pid == None && row.identity.port == None && row.identity.bootId == None
      && row.identity.startId == None && row.identity.executable == None && row.localPort == None
  {
  }

  /** Every field of `persisted` is unset or the one in `known`. */
  predicate Within(persisted: Identity, known: Identity) {
    && (persisted.pid == None || persisted.pid == known.pid)
    && (persisted.port == None || persisted.port == known.port)
    && (persisted.bootId == None || persisted.bootId == known.bootId)
    && (persisted.startId == None || persisted.startId == known.startId)
    && (persisted.executable == None || persisted.executable == known.executable)
  }

  /** No set field of `before` has another value in `after`: fields are only set once or cleared. */
  predicate WriteOnce(before: Identity, after: Identity) {
    && (before.pid == None || after.pid == None || after.pid == before.pid)
    && (before.port == None || after.port == None || after.port == before.port)
    && (before.bootId == None || after.bootId == None || after.bootId == before.bootId)
    && (before.startId == None || after.startId == None || after.startId == before.startId)
    && (before.executable == None || after.executable == None || after.executable == before.executable)
  }
}
