/** The hub socket: installed and torn down under one lock, with a ping channel and a
    cancellable context of its own. */
module HubSocket {
  import opened Text

  /** The message types that enrollment singles out; every other type is `Ordinary`. */
  datatype MsgType = EnrollmentProof | EnrollmentChallenge | EnrollmentApproved | EnrollmentRejected | Ordinary(name: string)

  /** Sockets and ping channels are pointers, numbered here. `closedPings` lists the
      channels in the order they were closed; `cancelled` are the sockets whose context
      has ended. */
  datatype Transport = Transport(
    conn: Option<nat>, connected: bool, pendingEnrollment: bool, ping: Option<nat>, cancel: Option<nat>,
    nextPing: nat, closedPings: seq<nat>, cancelled: set<nat>)

  const Fresh := Transport(None, false, false, None, None, 0, [], {})

  function CancelContext(t: Transport): Transport {
    if t.cancel.Some? then t.(cancel := None, cancelled := t.cancelled + {t.cancel.value}) else t
  }

  function ClosePing(t: Transport): Transport {
    if t.ping.Some? then t.(ping := None, closedPings := t.closedPings + [t.ping.value]) else t
  }

  function TearDown(t: Transport): Transport {
    ClosePing(CancelContext(t)).(conn := None, connected := false, pendingEnrollment := false)
  }

  /** markDisconnectedIfCurrent. */
  function MarkDisconnected(t: Transport, expected: Option<nat>): Transport {
    if expected.Some? && t.conn != expected then t else TearDown(t)
  }

  function Install(t: Transport, sock: nat, tokenless: bool): Transport {
    ClosePing(t).(ping := Some(t.nextPing), nextPing := t.nextPing + 1, cancel := Some(sock),
                  conn := Some(sock), connected := true, pendingEnrollment := tokenless)
  }

  /** The socket that sendOnConnection writes to, if it writes. */
  function WriteTarget(t: Transport, expected: Option<nat>, kind: MsgType): Option<nat> {
    if t.conn.None? || (expected.Some? && t.conn != expected) then None
    else if t.pendingEnrollment && !kind.EnrollmentProof? then None
    else t.conn
  }

  /** inboundMessageAllowed. */
  predicate InboundAllowed(pending: bool, kind: MsgType) {
    pending ==> kind.EnrollmentChallenge? || kind.EnrollmentApproved? || kind.EnrollmentRejected?
  }

  class WsTransport {
    var conn: Option<nat>
    var connected: bool
    var pendingEnrollment: bool
    var ping: Option<nat>
    var cancel: Option<nat>
    var nextPing: nat
    var closedPings: seq<nat>
    var cancelled: set<nat>

    ghost function Abs(): Transport
      reads this
    {
      Transport(conn, connected, pendingEnrollment, ping, cancel, nextPing, closedPings, cancelled)
    }

    constructor ()
      ensures Abs() == Fresh
    {
      conn, connected, pendingEnrollment, ping, cancel := None, false, false, None, None;
      nextPing, closedPings, cancelled := 0, [], {};
    }

    method InstallSocket(sock: nat, tokenless: bool)
      modifies this
      ensures Abs() == Install(old(Abs()), sock, tokenless)
    {
      cancel := Some(sock);
      if ping.Some? {
        closedPings := closedPings + [ping.value];
      }
      ping := Some(nextPing);
      nextPing := nextPing + 1;
      conn := Some(sock);
      connected := true;
      pendingEnrollment := tokenless;
    }

    method MarkDisconnectedIfCurrent(expected: Option<nat>)
      modifies this
      ensures Abs() == MarkDisconnected(old(Abs()), expected)
    {
      if expected.Some? && conn != expected {
        return;
      }
      if cancel.Some? {
        cancelled := cancelled + {cancel.value};
        cancel := None;
      }
      connected := false;
      pendingEnrollment := false;
      if ping.Some? {
        closedPings := closedPings + [ping.value];
        ping := None;
      }
      conn := None;
    }

    method Close()
      modifies this
      ensures Abs() == TearDown(old(Abs()))
    {
      if cancel.Some? {
        cancelled := cancelled + {cancel.value};
        cancel := None;
      }
      if ping.Some? {
        closedPings := closedPings + [ping.value];
        ping := None;
      }
      conn := None;
      connected := false;
      pendingEnrollment := false;
    }

    method SendOnConnection(expected: Option<nat>, kind: MsgType) returns (wrote: Option<nat>)
      ensures wrote == WriteTarget(Abs(), expected, kind)
    {
      if conn.None? || (expected.Some? && conn != expected) {
        return None;
      }
      if pendingEnrollment && !kind.EnrollmentProof? {
        return None;
      }
      return conn;
    }
  }

  // ------------------------------------------------------------------ the invariant

  /** Connected exactly while a socket and an open ping channel are present, and every
      channel is closed at most once. */
  ghost predicate Consistent(t: Transport) {
    && (t.connected <==> t.conn.Some?) && (t.connected <==> t.ping.Some?)
    && (t.pendingEnrollment ==> t.connected)
    && (t.conn.Some? ==> t.cancel == t.conn)
    && (t.ping.Some? ==> t.ping.value < t.nextPing && t.ping.value !in t.closedPings)
    && (forall c :: c in t.closedPings ==> c < t.nextPing)
    && Distinct(t.closedPings)
  }

  lemma ClosePingConsistent(t: Transport)
    requires Consistent(t)
    ensures Distinct(ClosePing(t).closedPings)
    ensures forall c :: c in ClosePing(t).closedPings ==> c < t.nextPing
  {
  }

  lemma InstallConsistent(t: Transport, sock: nat, tokenless: bool)
    requires Consistent(t)
    ensures Consistent(Install(t, sock, tokenless))
  {
    ClosePingConsistent(t);
  }

  lemma MarkConsistent(t: Transport, expected: Option<nat>)
    requires Consistent(t)
    ensures Consistent(MarkDisconnected(t, expected))
  {
    ClosePingConsistent(t);
  }

  // ------------------------------------------------------------- what the steps achieve

  /** A disconnect for no socket or for the current one leaves nothing behind: no socket, no
      ping channel, an ended context. One for any other socket changes nothing. */
  lemma DisconnectsExactly(t: Transport, expected: Option<nat>)
    ensures var u := MarkDisconnected(t, expected);
      if expected.Some? && t.conn != expected then u == t
      else
        && u.conn.None? && !u.connected && !u.pendingEnrollment && u.ping.None? && u.cancel.None? && u.nextPing == t.nextPing
        && u.closedPings == t.closedPings + (if t.ping.Some? then [t.ping.value] else [])
        && u.cancelled == t.cancelled + (if t.cancel.Some? then {t.cancel.value} else {})
  {
    assert t.closedPings + [] == t.closedPings && t.cancelled + {} == t.cancelled;
  }

  /** An install leaves the new socket connected with a ping channel of its own. */
  lemma InstallsExactly(t: Transport, sock: nat, tokenless: bool)
    requires Consistent(t)
    ensures var u := Install(t, sock, tokenless);
      && u.conn == Some(sock) && u.connected && u.pendingEnrollment == tokenless && u.cancel == Some(sock)
      && u.ping.Some? && u.ping != t.ping && u.ping.value !in u.closedPings
      && (t.ping.Some? ==> t.ping.value in u.closedPings) && u.cancelled == t.cancelled
  {
  }

  /** A send bound to the current socket writes there exactly when enrollment is not pending or
      the message is the proof; a send bound to another socket never writes, and an unbound
      one goes to whatever socket is open, under the same condition. */
  lemma WritesExactly(t: Transport, sock: nat, kind: MsgType)
    ensures WriteTarget(t, Some(sock), kind) ==
      if t.conn == Some(sock) && (!t.pendingEnrollment || kind == EnrollmentProof) then Some(sock) else None
    ensures WriteTarget(t, None, kind) == if !t.pendingEnrollment || kind == EnrollmentProof then t.conn else None
  {
  }
}
