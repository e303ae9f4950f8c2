/** Docker exec sessions: a reservation is made before the asynchronous start, and the
    start publishes a session only if its own reservation is still in place. */
module DockerExec {

  const MAX_SESSIONS: nat := 10

  datatype SessionId = SessionId(text: string)

  /** One reservation and the session that may come of it: pointer identity is `uid`,
      and `sock` is the hub socket whose message asked for it. */
  datatype Owner = Owner(uid: nat, sock: nat)

  /** The manager's maps and the contexts of its owners. A context fails when it was
      cancelled, when its setup timer expired first, or when its socket went away. */
  datatype Exec = Exec(
    pending: map<SessionId, Owner>, sessions: map<SessionId, Owner>,
    cancelled: set<nat>, timedOut: set<nat>, deadSockets: set<nat>)
  {
    predicate Failed(o: Owner) {
      o.uid in cancelled || o.uid in timedOut || o.sock in deadSockets
    }
    predicate Pends(id: SessionId, o: Owner) {
      id in pending && pending[id] == o
    }
    predicate Runs(id: SessionId, o: Owner) {
      id in sessions && sessions[id] == o
    }
  }

  predicate CanReserve(x: Exec, id: SessionId) {
    id !in x.sessions && id !in x.pending && |x.sessions| + |x.pending| < MAX_SESSIONS
  }

  function Reserve(x: Exec, id: SessionId, o: Owner): Exec {
    if CanReserve(x, id) then x.(pending := x.pending[id := o]) else x
  }

  /** HandleExecClose: a pending start is withdrawn at once; an active session is only
      cancelled, and its cleanup follows. */
  function CloseOne(x: Exec, id: SessionId): Exec {
    var gone := if id in x.pending then {x.pending[id].uid} else {};
    var asked := if id in x.sessions then {x.sessions[id].uid} else {};
    x.(pending := x.pending - {id}, cancelled := x.cancelled + gone + asked)
  }

  function Uids(m: map<SessionId, Owner>): set<nat> {
    set id | id in m :: m[id].uid
  }

  lemma RemoveOne(m: map<SessionId, Owner>, id: SessionId)
    ensures |m - {id}| == |m| - if id in m then 1 else 0
  {
    assert (m - {id}).Keys == m.Keys - {id};
  }

  lemma UidsRemove(m: map<SessionId, Owner>, id: SessionId)
    requires id in m
    ensures Uids(m) == Uids(m - {id}) + {m[id].uid}
  {
    forall u | u in Uids(m)
      ensures u in Uids(m - {id}) + {m[id].uid}
    {
      var k :| k in m && m[k].uid == u;
      assert k != id ==> k in m - {id};
    }
  }

  function CloseAll(x: Exec): Exec {
    x.(pending := map[], sessions := map[], cancelled := x.cancelled + Uids(x.pending) + Uids(x.sessions))
  }

  /** The first cause of a context's end stands. */
  function Expire(x: Exec, o: Owner): Exec {
    if x.Failed(o) then x else x.(timedOut := x.timedOut + {o.uid})
  }

  function Publish(x: Exec, id: SessionId, o: Owner): Exec {
    if x.Pends(id, o) && !x.Failed(o) then x.(pending := x.pending - {id}, sessions := x.sessions[id := o])
    else x.(cancelled := x.cancelled + {o.uid})
  }

  /** The deferred end of startExec. */
  function Withdraw(x: Exec, id: SessionId, o: Owner): Exec {
    if x.Pends(id, o) then x.(pending := x.pending - {id}, cancelled := x.cancelled + {o.uid}) else x
  }

  function Cleanup(x: Exec, id: SessionId, o: Owner): Exec {
    x.(sessions := if x.Runs(id, o) then x.sessions - {id} else x.sessions, cancelled := x.cancelled + {o.uid})
  }

  // ------------------------------------------------------------ the manager as written

  class DockerExecManager {
    var pending: map<SessionId, Owner>
    var sessions: map<SessionId, Owner>
    var cancelled: set<nat>
    var timedOut: set<nat>
    var deadSockets: set<nat>

    ghost function Abs(): Exec
      reads this
    {
      Exec(pending, sessions, cancelled, timedOut, deadSockets)
    }

    constructor ()
      ensures Abs() == Exec(map[], map[], {}, {}, {})
    {
      pending, sessions, cancelled, timedOut, deadSockets := map[], map[], {}, {}, {};
    }

    /** The lock section of PrepareExecStart. */
    method PrepareExecStart(id: SessionId, o: Owner) returns (reserved: bool)
      modifies this
      ensures reserved == CanReserve(old(Abs()), id) && Abs() == Reserve(old(Abs()), id, o)
    {
      if id in sessions || id in pending {
        return false;
      }
      if |sessions| + |pending| >= MAX_SESSIONS {
        return false;
      }
      pending := pending[id := o];
      return true;
    }

    /** The lock section of startExec that makes the session. */
    method PublishSession(id: SessionId, o: Owner) returns (published: bool)
      modifies this
      ensures published == (old(Abs()).Pends(id, o) && !old(Abs()).Failed(o))
      ensures Abs() == Publish(old(Abs()), id, o)
    {
      if id !in pending || pending[id] != o || o.uid in cancelled || o.uid in timedOut || o.sock in deadSockets {
        cancelled := cancelled + {o.uid};
        return false;
      }
      pending := pending - {id};
      sessions := sessions[id := o];
      return true;
    }

    method HandleExecClose(id: SessionId)
      modifies this
      ensures Abs() == CloseOne(old(Abs()), id)
    {
      if id in pending {
        cancelled := cancelled + {pending[id].uid};
      }
      pending := pending - {id};
      if id in sessions {
        cancelled := cancelled + {sessions[id].uid};
      }
    }

    method CleanupSession(id: SessionId, o: Owner) returns (current: bool)
      modifies this
      ensures current == old(Abs()).Runs(id, o) && Abs() == Cleanup(old(Abs()), id, o)
    {
      current := id in sessions && sessions[id] == o;
      if current {
        sessions := sessions - {id};
      }
      cancelled := cancelled + {o.uid};
    }

    method CloseEverything()
      modifies this
      ensures Abs() == CloseAll(old(Abs()))
    {
      ClosePending();
      CloseSessions();
    }

    method ClosePending()
      modifies `pending, `cancelled
      ensures pending == map[] && cancelled == old(cancelled) + Uids(old(pending))
    {
      while pending != map[]
        invariant cancelled + Uids(pending) == old(cancelled) + Uids(old(pending))
        decreases |pending|
      {
        var id :| id in pending;
        UidsRemove(pending, id);
        RemoveOne(pending, id);
        cancelled := cancelled + {pending[id].uid};
        pending := pending - {id};
      }
    }

    method CloseSessions()
      modifies `sessions, `cancelled
      ensures sessions == map[] && cancelled == old(cancelled) + Uids(old(sessions))
    {
      while sessions != map[]
        invariant cancelled + Uids(sessions) == old(cancelled) + Uids(old(sessions))
        decreases |sessions|
      {
        var id :| id in sessions;
        UidsRemove(sessions, id);
        RemoveOne(sessions, id);
        cancelled := cancelled + {sessions[id].uid};
        sessions := sessions - {id};
      }
    }
  }
}
