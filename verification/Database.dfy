/** The statements the gateway runs on its `sessions` table, one function a statement. */
module Database {
  import opened Wrappers
  import opened Records

  type Table = map<SessionId, Row>

  function Lookup(rows: Table, id: SessionId): Option<Row> {
    if id in rows then Some(rows[id]) else None
  }

  function Insert(rows: Table, id: SessionId, alias: Alias): Table {
    rows[id := NewRow(alias)]
  }

  function SetRemoteIdentity(rows: Table, id: SessionId, identity: Identity): Table {
    if id in rows then rows[id := rows[id].(identity := identity)] else rows
  }

  function SetTunnelIdentity(rows: Table, id: SessionId, port: int): Table {
    if id in rows then rows[id := rows[id].(localPort := Some(port))] else rows
  }

  function ClearRemoteIdentity(rows: Table, id: SessionId): Table {
    if id in rows then rows[id := rows[id].(identity := NO_IDENTITY)] else rows
  }

  function ClearTunnelIdentity(rows: Table, id: SessionId): Table {
    if id in rows then rows[id := rows[id].(localPort := None)] else rows
  }

  /** The WHERE guard both recovery statements share. */
  predicate Recoverable(rows: Table, id: SessionId) {
    id in rows && rows[id].state != Stopping && rows[id].closeReason == None
  }

  function BeginRecovery(rows: Table, id: SessionId): Table {
    if Recoverable(rows, id) then rows[id := rows[id].(localPort := None)] else rows
  }

  function CompleteRecovery(rows: Table, id: SessionId, found: RuntimeIdentity, port: int): Table {
    if Recoverable(rows, id) then
      rows[id := rows[id].(state := Ready, identity := found.Persisted(), localPort := Some(port), errorCode := None)]
    else rows
  }

  function MarkReady(rows: Table, id: SessionId): Table {
    if id in rows && rows[id].state == Starting then rows[id := rows[id].(state := Ready)] else rows
  }

  function MarkStopping(rows: Table, id: SessionId, reason: CloseReason): Table {
    if id in rows then rows[id := rows[id].(state := Stopping, closeReason := Some(reason))] else rows
  }

  function MarkError(rows: Table, id: SessionId, code: ErrorCode): Table {
    if id in rows then rows[id := rows[id].(state := Error, errorCode := Some(code))] else rows
  }

  function Delete(rows: Table, id: SessionId): Table {
    rows - {id}
  }

  /** `order` lists every row exactly once. */
  ghost predicate Listing(rows: Table, order: seq<SessionId>) {
    && (forall i, j :: 0 <= i < j < |order| ==> order[i] != order[j])
    && (forall id :: id in order <==> id in rows)
  }
}
