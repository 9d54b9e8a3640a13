/** The sessions table as the gateway updates it in place. */
module Storage {
  import opened Wrappers
  import opened Records
  import opened Database

  /** The table itself: every statement takes effect as its function says. */
  class SessionTable {
    var rows: Table

    constructor (rows: Table)
      ensures this.rows == rows
    {
      this.rows := rows;
    }

    method GetSession(id: SessionId) returns (row: Option<Row>)
      ensures row == Lookup(rows, id)
    {
      if id in rows { row := Some(rows[id]); } else { row := None; }
    }

    method GetSessionByAlias(alias: Alias) returns (id: Option<SessionId>)
      ensures id.Some? ==> id.value in rows && rows[id.value].alias == alias
      ensures id.None? ==> forall x :: x in rows ==> rows[x].alias != alias
    {
      if exists x :: x in rows && rows[x].alias == alias {
        var x :| x in rows && rows[x].alias == alias;
        id := Some(x);
      } else {
        id := None;
      }
    }

    method InsertSession(id: SessionId, alias: Alias)
      modifies this
      ensures rows == Insert(old(rows), id, alias)
    {
      rows := rows[id := NewRow(alias)];
    }

    method SetIdentity(id: SessionId, identity: RuntimeIdentity)
      modifies this
      ensures rows == SetRemoteIdentity(old(rows), id, identity.Persisted())
    {
      if id in rows { rows := rows[id := rows[id].(identity := identity.Persisted())]; }
    }

    method SetTunnel(id: SessionId, port: int)
      modifies this
      ensures rows == SetTunnelIdentity(old(rows), id, port)
    {
      if id in rows { rows := rows[id := rows[id].(localPort := Some(port))]; }
    }

    method ClearIdentity(id: SessionId)
      modifies this
      ensures rows == ClearRemoteIdentity(old(rows), id)
    {
      if id in rows { rows := rows[id := rows[id].(identity := NO_IDENTITY)]; }
    }

    method ClearTunnel(id: SessionId)
      modifies this
      ensures rows == ClearTunnelIdentity(old(rows), id)
    {
      if id in rows { rows := rows[id := rows[id].(localPort := None)]; }
    }

    /** begin_session_recovery: whether one row was updated. */
    method Begin(id: SessionId) returns (begun: bool)
      modifies this
      ensures begun <==> Recoverable(old(rows), id)
      ensures rows == BeginRecovery(old(rows), id)
    {
      begun := id in rows && rows[id].state != Stopping && rows[id].closeReason == None;
      if begun { rows := rows[id := rows[id].(localPort := None)]; }
    }

    /** complete_session_recovery: whether one row was updated. */
    method Complete(id: SessionId, identity: RuntimeIdentity, port: int) returns (completed: bool)
      modifies this
      ensures completed <==> Recoverable(old(rows), id)
      ensures rows == CompleteRecovery(old(rows), id, identity, port)
    {
      completed := id in rows && rows[id].state != Stopping && rows[id].closeReason == None;
      if completed {
        rows := rows[id := rows[id].(
          state := Ready, identity := identity.Persisted(), localPort := Some(port), errorCode := None)];
      }
    }

    method Publish(id: SessionId)
      modifies this
      ensures rows == MarkReady(old(rows), id)
    {
      if id in rows && rows[id].state == Starting { rows := rows[id := rows[id].(state := Ready)]; }
    }

    method Stop(id: SessionId, reason: CloseReason)
      modifies this
      ensures rows == MarkStopping(old(rows), id, reason)
    {
      if id in rows { rows := rows[id := rows[id].(state := Stopping, closeReason := Some(reason))]; }
    }

    method Fail(id: SessionId, code: ErrorCode)
      modifies this
      ensures rows == MarkError(old(rows), id, code)
    {
      if id in rows { rows := rows[id := rows[id].(state := Error, errorCode := Some(code))]; }
    }

    method Remove(id: SessionId)
      modifies this
      ensures rows == Delete(old(rows), id)
    {
      rows := rows - {id};
    }
  }
}
