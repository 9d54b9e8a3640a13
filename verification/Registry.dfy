/** The ports published to the proxy. */
module Registry {
  import opened Wrappers
  import opened Records

  class ProxyRegistry {
    var targets: map<SessionId, int>

    constructor ()
      ensures targets == map[]
    {
      targets := map[];
    }

    /** Refuses a session that is already registered. */
    method Add(id: SessionId, port: int) returns (added: bool)
      modifies this
      ensures added <==> id !in old(targets)
      ensures targets == if added then old(targets)[id := port] else old(targets)
    {
      added := id !in targets;
      if added { targets := targets[id := port]; }
    }

    method Remove(id: SessionId)
      modifies this
      ensures targets == old(targets) - {id}
    {
      targets := targets - {id};
    }

    method Lookup(id: SessionId) returns (port: Option<int>)
      ensures port == if id in targets then Some(targets[id]) else None
    {
      if id in targets { port := Some(targets[id]); } else { port := None; }
    }
  }
}
