/** Who owns what across reconnects: the socket, its dispatchers, the exec and log owners
    they register, and the connect section that replaces the socket, interleaved freely. */
module SessionOwnership {
  import opened Text
  import opened HubSocket
  import opened DockerExec
  import opened DockerLogStreams
  import P = ExecProtocol

  /** The exclusive part of a connect attempt, up to the install. */
  datatype Stage = Locked | Marked | ExecCleared | LogsCleared
  datatype Section = Section(sock: nat, tokenless: bool, stage: Stage)

  /** A reader of the receive loop: the socket and enrollment state it captured together. */
  datatype Receiver = Receiver(sock: nat, pending: bool)

  datatype Write = Write(sock: nat, bound: Option<nat>, kind: MsgType)
  datatype Delivery = Delivery(sock: nat, kind: MsgType)

  datatype Hub = Hub(
    t: Transport,
    latest: Option<nat>,            // the most recently installed socket
    tokenless: map<nat, bool>,      // every installed socket: opened without a token?
    section: Option<Section>,       // holder of the exclusive dispatch lock
    readers: map<nat, nat>,         // holders of the shared dispatch lock, with their socket
    receivers: map<nat, Receiver>,
    exec: P.Proto,
    streams: map<SessionId, Owner>,
    nextStream: nat,
    wire: seq<Write>,
    delivered: seq<Delivery>)

  const Init := Hub(Fresh, None, map[], None, map[], map[], P.Init, map[], 0, [], [])

  datatype Event =
    // connectWithResponse from the dispatch lock on
    | Lock(sock: nat, tokenless: bool) | Mark | CloseExec | CloseLogs | InstallSocket | GiveUp
    // ping loop, receive loop, Close, network change
    | Disconnect(expected: Option<nat>)
    // withCurrentSessionMessage
    | Enter(tid: nat, conn: nat) | Leave(tid: nat)
    | ExecStart(tid: nat, id: SessionId) | ExecClose(tid: nat, id: SessionId)
    | LogsStart(tid: nat, id: SessionId) | LogsStop(tid: nat, id: SessionId)
    // asynchronous owners
    | ExecActs(u: nat, act: P.Act) | ExecCancel(u: nat) | StreamEnds(id: SessionId, o: Owner)
    // traffic
    | Send(expected: Option<nat>, kind: MsgType) | Receive(tid: nat) | Deliver(tid: nat, kind: MsgType)

  /** A disconnect also ends the contexts that hang off the socket's context. */
  function Disconnected(h: Hub, expected: Option<nat>): Hub {
    var t := MarkDisconnected(h.t, expected);
    if t == h.t || h.t.cancel.None? then h.(t := t)
    else h.(t := t, exec := P.Step(h.exec, P.LoseSocket(h.t.cancel.value)))
  }

  function AtStage(h: Hub, stage: Stage): bool {
    h.section.Some? && h.section.value.stage == stage
  }

  function StepSection(h: Hub, e: Event): Hub {
    match e
    case Lock(sock, tokenless) =>
      if h.section.None? && h.readers == map[] && sock !in h.tokenless
      then h.(section := Some(Section(sock, tokenless, Locked))) else h
    case Mark =>
      if AtStage(h, Locked) then Disconnected(h, None).(section := Some(h.section.value.(stage := Marked))) else h
    case CloseExec =>
      if AtStage(h, Marked)
      then h.(exec := P.Step(h.exec, P.Shutdown), section := Some(h.section.value.(stage := ExecCleared))) else h
    case CloseLogs =>
      if AtStage(h, ExecCleared) then h.(streams := map[], section := Some(h.section.value.(stage := LogsCleared))) else h
    case InstallSocket =>
      if !AtStage(h, LogsCleared) then h
      else
        var s := h.section.value;
        h.(t := Install(h.t, s.sock, s.tokenless), latest := Some(s.sock),
           tokenless := h.tokenless[s.sock := s.tokenless], section := None)
    case GiveUp => if AtStage(h, LogsCleared) then h.(section := None) else h
    case _ => h
  }

  function StepDispatch(h: Hub, e: Event): Hub {
    match e
    case Enter(tid, conn) =>
      if h.section.None? && tid !in h.readers && h.t.conn == Some(conn) && h.t.connected
      then h.(readers := h.readers[tid := conn]) else h
    case Leave(tid) => h.(readers := h.readers - {tid})
    case ExecStart(tid, id) =>
      if tid in h.readers then h.(exec := P.Step(h.exec, P.Start(id, h.readers[tid]))) else h
    case ExecClose(tid, id) => if tid in h.readers then h.(exec := P.Step(h.exec, P.CloseRequest(id))) else h
    case LogsStart(tid, id) =>
      if tid in h.readers
      then h.(streams := Open(h.streams, id, Owner(h.nextStream, h.readers[tid]), h.t.cancelled), nextStream := h.nextStream + 1)
      else h
    case LogsStop(tid, id) => if tid in h.readers then h.(streams := h.streams - {id}) else h
    case _ => h
  }

  function StepOwners(h: Hub, e: Event): Hub {
    match e
    case ExecActs(u, act) => h.(exec := P.Step(h.exec, P.Acts(u, act)))
    case ExecCancel(u) => h.(exec := P.Step(h.exec, P.Cancel(u)))
    case StreamEnds(id, o) => h.(streams := Ended(h.streams, id, o))
    case _ => h
  }

  function StepTraffic(h: Hub, e: Event): Hub {
    match e
    case Disconnect(expected) => Disconnected(h, expected)
    case Send(expected, kind) =>
      var target := WriteTarget(h.t, expected, kind);
      if target.Some? then h.(wire := h.wire + [Write(target.value, expected, kind)]) else h
    case Receive(tid) =>
      if h.t.conn.Some? then h.(receivers := h.receivers[tid := Receiver(h.t.conn.value, h.t.pendingEnrollment)]) else h
    case Deliver(tid, kind) =>
      if tid in h.receivers
         && h.t.conn == Some(h.receivers[tid].sock) && h.t.connected
         && InboundAllowed(h.receivers[tid].pending, kind)
      then h.(delivered := h.delivered + [Delivery(h.receivers[tid].sock, kind)]) else h
    case _ => h
  }

  function Step(h: Hub, e: Event): Hub {
    if e.Lock? || e.Mark? || e.CloseExec? || e.CloseLogs? || e.InstallSocket? || e.GiveUp? then StepSection(h, e)
    else if e.Disconnect? || e.Send? || e.Receive? || e.Deliver? then StepTraffic(h, e)
    else if e.ExecActs? || e.ExecCancel? || e.StreamEnds? then StepOwners(h, e)
    else StepDispatch(h, e)
  }

  function Run(h: Hub, es: seq<Event>): Hub
    decreases |es|
  {
    if es == [] then h else Run(Step(h, es[0]), es[1..])
  }

  // -------------------------------------------------- owners and where they come from

  ghost predicate Owned(m: map<SessionId, Owner>, latest: Option<nat>) {
    forall id :: id in m ==> latest == Some(m[id].sock)
  }

  /** Everything registered in the exec manager belongs to the given socket. */
  ghost predicate ExecOwned(x: Exec, latest: Option<nat>) {
    Owned(x.pending, latest) && Owned(x.sessions, latest)
  }

  lemma EffectOwned(x: Exec, id: SessionId, o: Owner, act: P.Act, latest: Option<nat>)
    requires ExecOwned(x, latest)
    ensures ExecOwned(P.Effect(x, id, o, act), latest)
  {
  }

  lemma EffectStaysEmpty(x: Exec, id: SessionId, o: Owner, act: P.Act)
    requires x.pending == map[] && x.sessions == map[]
    ensures var x' := P.Effect(x, id, o, act); x'.pending == map[] && x'.sessions == map[]
  {
  }

  /** Only a start registers a new owner, on the socket of its message. */
  lemma ExecStepOwned(p: P.Proto, e: P.Event, latest: Option<nat>)
    requires ExecOwned(p.x, latest) && (e.Start? ==> latest == Some(e.sock))
    ensures ExecOwned(P.Step(p, e).x, latest)
  {
    if e.Acts? && e.u in p.tasks {
      EffectOwned(p.x, p.tasks[e.u].id, p.tasks[e.u].owner, e.act, latest);
    }
  }

  ghost predicate ExecEmpty(x: Exec) {
    x.pending == map[] && x.sessions == map[]
  }

  lemma ExecStepStaysEmpty(p: P.Proto, e: P.Event)
    requires ExecEmpty(p.x) && !e.Start?
    ensures ExecEmpty(P.Step(p, e).x)
  {
    if e.Acts? && e.u in p.tasks {
      EffectStaysEmpty(p.x, p.tasks[e.u].id, p.tasks[e.u].owner, e.act);
    }
  }

  // ------------------------------------------------------------------ the invariant

  ghost predicate SocketOk(h: Hub) {
    && Consistent(h.t)
    && (h.t.conn.Some? ==>
          && h.latest == h.t.conn && h.t.conn.value in h.tokenless
          && h.t.pendingEnrollment == h.tokenless[h.t.conn.value])
  }

  ghost predicate LocksOk(h: Hub) {
    && (forall tid :: tid in h.readers ==> h.latest == Some(h.readers[tid]))
    && (h.section.Some? ==> h.readers == map[] && h.section.value.sock !in h.tokenless)
  }

  ghost predicate OwnersOk(h: Hub) {
    && ExecOwned(h.exec.x, h.latest) && Owned(h.streams, h.latest)
    && (AtStage(h, ExecCleared) || AtStage(h, LogsCleared) ==> ExecEmpty(h.exec.x))
    && (AtStage(h, LogsCleared) ==> h.streams == map[])
  }

  ghost predicate WriteOk(h: Hub, w: Write) {
    && w.sock in h.tokenless && (w.bound.Some? ==> w.bound.value == w.sock)
    && (h.tokenless[w.sock] ==> w.kind.EnrollmentProof?)
  }

  ghost predicate DeliveryOk(h: Hub, d: Delivery) {
    d.sock in h.tokenless && InboundAllowed(h.tokenless[d.sock], d.kind)
  }

  ghost predicate ReceiverOk(h: Hub, r: Receiver) {
    r.sock in h.tokenless && r.pending == h.tokenless[r.sock]
  }

  ghost predicate TrafficOk(h: Hub) {
    && (forall tid :: tid in h.receivers ==> ReceiverOk(h, h.receivers[tid]))
    && (forall i :: 0 <= i < |h.wire| ==> WriteOk(h, h.wire[i]))
    && (forall i :: 0 <= i < |h.delivered| ==> DeliveryOk(h, h.delivered[i]))
  }

  ghost predicate Inv(h: Hub) {
    SocketOk(h) && LocksOk(h) && OwnersOk(h) && TrafficOk(h)
  }

  // ------------------------------------------------------- one lemma per kind of step

  lemma DisconnectedSocket(h: Hub, expected: Option<nat>)
    requires SocketOk(h)
    ensures SocketOk(Disconnected(h, expected))
  {
    MarkConsistent(h.t, expected);
    var t := MarkDisconnected(h.t, expected);
    assert t == h.t || t.conn.None?;
  }

  lemma DisconnectedOwners(h: Hub, expected: Option<nat>)
    requires OwnersOk(h)
    ensures OwnersOk(Disconnected(h, expected))
  {
    if h.t.cancel.Some? {
      var pe := P.LoseSocket(h.t.cancel.value);
      ExecStepOwned(h.exec, pe, h.latest);
      if ExecEmpty(h.exec.x) {
        ExecStepStaysEmpty(h.exec, pe);
      }
    }
  }

  lemma DisconnectedKeeps(h: Hub, expected: Option<nat>)
    requires Inv(h)
    ensures Inv(Disconnected(h, expected))
  {
    DisconnectedSocket(h, expected);
    DisconnectedOwners(h, expected);
    SameTraffic(h, Disconnected(h, expected));
  }

  /** Traffic facts depend only on the traffic and on which sockets were tokenless. */
  lemma SameTraffic(h: Hub, h': Hub)
    requires TrafficOk(h) && h'.receivers == h.receivers && h'.wire == h.wire && h'.delivered == h.delivered
    requires forall s :: s in h.tokenless ==> s in h'.tokenless && h'.tokenless[s] == h.tokenless[s]
    ensures TrafficOk(h')
  {
    forall tid | tid in h'.receivers
      ensures ReceiverOk(h', h'.receivers[tid])
    {
      assert ReceiverOk(h, h.receivers[tid]);
    }
    forall i | 0 <= i < |h'.wire|
      ensures WriteOk(h', h'.wire[i])
    {
      assert WriteOk(h, h.wire[i]);
    }
    forall i | 0 <= i < |h'.delivered|
      ensures DeliveryOk(h', h'.delivered[i])
    {
      assert DeliveryOk(h, h.delivered[i]);
    }
  }

  lemma InstallKeeps(h: Hub)
    requires Inv(h) && AtStage(h, LogsCleared)
    ensures Inv(StepSection(h, InstallSocket))
  {
    var s, h' := h.section.value, StepSection(h, InstallSocket);
    InstallConsistent(h.t, s.sock, s.tokenless);
    SameTraffic(h, h');
  }

  lemma CloseExecKeeps(h: Hub)
    requires Inv(h) && AtStage(h, Marked)
    ensures Inv(StepSection(h, CloseExec))
  {
    SameTraffic(h, StepSection(h, CloseExec));
  }

  lemma MarkKeeps(h: Hub)
    requires Inv(h) && AtStage(h, Locked)
    ensures Inv(StepSection(h, Mark))
  {
    DisconnectedKeeps(h, None);
    var d, h' := Disconnected(h, None), StepSection(h, Mark);
    assert SocketOk(h') && LocksOk(h') && OwnersOk(h');
    SameTraffic(d, h');
  }

  lemma LockKeeps(h: Hub, sock: nat, tokenless: bool)
    requires Inv(h)
    ensures Inv(StepSection(h, Lock(sock, tokenless)))
  {
    SameTraffic(h, StepSection(h, Lock(sock, tokenless)));
  }

  lemma CloseLogsKeeps(h: Hub)
    requires Inv(h)
    ensures Inv(StepSection(h, CloseLogs)) && Inv(StepSection(h, GiveUp))
  {
    SameTraffic(h, StepSection(h, CloseLogs));
    SameTraffic(h, StepSection(h, GiveUp));
  }

  lemma SectionKeeps(h: Hub, e: Event)
    requires Inv(h)
    ensures Inv(StepSection(h, e))
  {
    match e
    case Lock(sock, tokenless) => LockKeeps(h, sock, tokenless);
    case Mark =>
      if AtStage(h, Locked) {
        MarkKeeps(h);
      }
    case CloseExec =>
      if AtStage(h, Marked) {
        CloseExecKeeps(h);
      }
    case CloseLogs => CloseLogsKeeps(h);
    case InstallSocket =>
      if AtStage(h, LogsCleared) {
        InstallKeeps(h);
      }
    case GiveUp => CloseLogsKeeps(h);
    case _ =>
  }

  lemma ReadersKeep(h: Hub, readers: map<nat, nat>)
    requires Inv(h) && (h.section.Some? ==> readers == map[])
    requires forall tid :: tid in readers ==> h.latest == Some(readers[tid])
    ensures Inv(h.(readers := readers))
  {
    SameTraffic(h, h.(readers := readers));
  }

  /** A dispatcher's change to the exec manager. */
  lemma DispatchExecKeeps(h: Hub, tid: nat, pe: P.Event)
    requires Inv(h) && tid in h.readers && (pe.Start? ==> pe.sock == h.readers[tid])
    ensures Inv(h.(exec := P.Step(h.exec, pe)))
  {
    ExecStepOwned(h.exec, pe, h.latest);
    var h' := h.(exec := P.Step(h.exec, pe));
    assert SocketOk(h') && LocksOk(h') && OwnersOk(h');
    SameTraffic(h, h');
  }

  /** A dispatcher's change to the log streams. */
  lemma DispatchLogsKeeps(h: Hub, tid: nat, streams: map<SessionId, Owner>, next: nat)
    requires Inv(h) && tid in h.readers && Owned(streams, h.latest)
    ensures Inv(h.(streams := streams, nextStream := next))
  {
    var h' := h.(streams := streams, nextStream := next);
    assert SocketOk(h') && LocksOk(h') && OwnersOk(h');
    SameTraffic(h, h');
  }

  lemma EnterKeeps(h: Hub, tid: nat, conn: nat)
    requires Inv(h)
    ensures Inv(StepDispatch(h, Enter(tid, conn)))
  {
    if h.section.None? && h.t.conn == Some(conn) {
      ReadersKeep(h, h.readers[tid := conn]);
    }
  }

  lemma ExecDispatchKeeps(h: Hub, tid: nat, id: SessionId)
    requires Inv(h)
    ensures Inv(StepDispatch(h, ExecStart(tid, id))) && Inv(StepDispatch(h, ExecClose(tid, id)))
  {
    if tid in h.readers {
      DispatchExecKeeps(h, tid, P.Start(id, h.readers[tid]));
      DispatchExecKeeps(h, tid, P.CloseRequest(id));
    }
  }

  lemma LogsDispatchKeeps(h: Hub, tid: nat, id: SessionId)
    requires Inv(h)
    ensures Inv(StepDispatch(h, LogsStart(tid, id))) && Inv(StepDispatch(h, LogsStop(tid, id)))
  {
    if tid in h.readers {
      DispatchLogsKeeps(h, tid, h.streams - {id}, h.nextStream);
      DispatchLogsKeeps(h, tid, Open(h.streams, id, Owner(h.nextStream, h.readers[tid]), h.t.cancelled), h.nextStream + 1);
    }
  }

  lemma DispatchKeeps(h: Hub, e: Event)
    requires Inv(h)
    ensures Inv(StepDispatch(h, e))
  {
    match e
    case Enter(tid, conn) => EnterKeeps(h, tid, conn);
    case Leave(tid) => ReadersKeep(h, h.readers - {tid});
    case ExecStart(tid, id) => ExecDispatchKeeps(h, tid, id);
    case ExecClose(tid, id) => ExecDispatchKeeps(h, tid, id);
    case LogsStart(tid, id) => LogsDispatchKeeps(h, tid, id);
    case LogsStop(tid, id) => LogsDispatchKeeps(h, tid, id);
    case _ =>
  }

  /** A change to the exec manager from outside any dispatcher. */
  lemma ExecTaskKeeps(h: Hub, pe: P.Event)
    requires Inv(h) && !pe.Start?
    ensures Inv(h.(exec := P.Step(h.exec, pe)))
  {
    ExecStepOwned(h.exec, pe, h.latest);
    if ExecEmpty(h.exec.x) {
      ExecStepStaysEmpty(h.exec, pe);
    }
    var h' := h.(exec := P.Step(h.exec, pe));
    assert SocketOk(h') && LocksOk(h') && OwnersOk(h');
    SameTraffic(h, h');
  }

  lemma OwnersKeep(h: Hub, e: Event)
    requires Inv(h)
    ensures Inv(StepOwners(h, e))
  {
    match e
    case ExecActs(u, act) => ExecTaskKeeps(h, P.Acts(u, act));
    case ExecCancel(u) => ExecTaskKeeps(h, P.Cancel(u));
    case StreamEnds(id, o) => SameTraffic(h, StepOwners(h, e));
    case _ =>
  }

  lemma TrafficKeeps(h: Hub, e: Event)
    requires Inv(h)
    ensures Inv(StepTraffic(h, e))
  {
    if e.Disconnect? {
      DisconnectedKeeps(h, e.expected);
    } else {
      var h' := StepTraffic(h, e);
      assert SocketOk(h') && LocksOk(h') && OwnersOk(h');
      TrafficGrows(h, e);
    }
  }

  lemma TrafficGrows(h: Hub, e: Event)
    requires Inv(h) && !e.Disconnect?
    ensures TrafficOk(StepTraffic(h, e))
  {
    var h' := StepTraffic(h, e);
    forall i | 0 <= i < |h'.wire|
      ensures WriteOk(h', h'.wire[i])
    {
      assert i < |h.wire| ==> WriteOk(h, h.wire[i]);
    }
    forall i | 0 <= i < |h'.delivered|
      ensures DeliveryOk(h', h'.delivered[i])
    {
      assert i < |h.delivered| ==> DeliveryOk(h, h.delivered[i]);
      assert e.Deliver? && e.tid in h.receivers ==> ReceiverOk(h, h.receivers[e.tid]);
    }
    forall tid | tid in h'.receivers
      ensures ReceiverOk(h', h'.receivers[tid])
    {
      assert tid in h.receivers ==> ReceiverOk(h, h.receivers[tid]);
    }
  }

  lemma StepKeepsInv(h: Hub, e: Event)
    requires Inv(h)
    ensures Inv(Step(h, e))
  {
    SectionKeeps(h, e);
    TrafficKeeps(h, e);
    OwnersKeep(h, e);
    DispatchKeeps(h, e);
  }

  lemma {:induction false} RunKeepsInv(h: Hub, es: seq<Event>)
    requires Inv(h)
    ensures Inv(Run(h, es))
    decreases |es|
  {
    if es != [] {
      StepKeepsInv(h, es[0]);
      RunKeepsInv(Step(h, es[0]), es[1..]);
    }
  }

  // --------------------------------------------------------------- main results

  /** In every interleaving of dispatch, asynchronous startup, disconnects and reconnects,
      each registered exec reservation, exec session and log stream was created on the most
      recently installed socket. */
  lemma OwnersBelongToTheLatestSocket(es: seq<Event>)
    ensures var h := Run(Init, es);
      && (forall id :: id in h.exec.x.pending ==> h.latest == Some(h.exec.x.pending[id].sock))
      && (forall id :: id in h.exec.x.sessions ==> h.latest == Some(h.exec.x.sessions[id].sock))
      && (forall id :: id in h.streams ==> h.latest == Some(h.streams[id].sock))
      && (h.t.conn.Some? ==> h.t.conn == h.latest)
  {
    RunKeepsInv(Init, es);
  }

  /** In every run the transport is connected exactly while a socket and an open ping
      channel are present, no ping channel is closed twice, a sender bound to a socket
      writes to no other, and a socket opened without a token writes only enrollment.proof
      and delivers only the three enrollment messages. */
  lemma SocketDiscipline(es: seq<Event>)
    ensures var h := Run(Init, es);
      && Consistent(h.t)
      && (forall i :: 0 <= i < |h.wire| ==> WriteOk(h, h.wire[i]))
      && (forall i :: 0 <= i < |h.delivered| ==> DeliveryOk(h, h.delivered[i]))
  {
    RunKeepsInv(Init, es);
  }

  /** In every run a send bound to the open socket goes out on it exactly when that socket
      was opened with a token or the message is the proof; bound to any other it does not. */
  lemma SendsExactly(es: seq<Event>, sock: nat, kind: MsgType)
    ensures var h := Run(Init, es);
      Step(h, Send(Some(sock), kind)).wire ==
      if h.t.conn == Some(sock) && sock in h.tokenless && (!h.tokenless[sock] || kind == EnrollmentProof)
      then h.wire + [Write(sock, Some(sock), kind)] else h.wire
  {
    RunKeepsInv(Init, es);
    SendStep(Run(Init, es), sock, kind);
  }

  lemma SendStep(h: Hub, sock: nat, kind: MsgType)
    requires SocketOk(h)
    ensures Step(h, Send(Some(sock), kind)).wire ==
      if h.t.conn == Some(sock) && sock in h.tokenless && (!h.tokenless[sock] || kind == EnrollmentProof)
      then h.wire + [Write(sock, Some(sock), kind)] else h.wire
  {
    WritesExactly(h.t, sock, kind);
  }

  /** In every run a message received on the socket that is still open is delivered exactly
      when that socket was opened with a token or the message is one of the three. */
  lemma DeliversExactly(es: seq<Event>, tid: nat, kind: MsgType)
    requires tid in Run(Init, es).receivers
    ensures var h := Run(Init, es);
      Step(h, Deliver(tid, kind)).delivered ==
      if IsOpen(h, h.receivers[tid].sock) && Admits(h, h.receivers[tid].sock, kind)
      then h.delivered + [Delivery(h.receivers[tid].sock, kind)] else h.delivered
  {
    RunKeepsInv(Init, es);
    DeliverStep(Run(Init, es), tid, kind);
  }

  predicate IsOpen(h: Hub, sock: nat) {
    h.t.conn == Some(sock) && sock in h.tokenless
  }

  predicate Admits(h: Hub, sock: nat, kind: MsgType)
    requires sock in h.tokenless
  {
    !h.tokenless[sock] || kind == EnrollmentChallenge || kind == EnrollmentApproved || kind == EnrollmentRejected
  }

  lemma DeliverStep(h: Hub, tid: nat, kind: MsgType)
    requires SocketOk(h) && tid in h.receivers && ReceiverOk(h, h.receivers[tid])
    ensures Step(h, Deliver(tid, kind)).delivered ==
      if IsOpen(h, h.receivers[tid].sock) && Admits(h, h.receivers[tid].sock, kind)
      then h.delivered + [Delivery(h.receivers[tid].sock, kind)] else h.delivered
  {
  }

  /** A message is dispatched exactly while no connect section runs and its socket is the open
      one. */
  lemma EntersExactly(h: Hub, tid: nat, conn: nat)
    requires SocketOk(h) && tid !in h.readers
    ensures Step(h, Enter(tid, conn)).readers ==
      if h.section.None? && h.t.conn == Some(conn) then h.readers[tid := conn] else h.readers
    ensures Step(h, Leave(tid)).readers == h.readers - {tid}
  {
  }

  /** A dispatched start registers its owner on the dispatcher's socket. */
  lemma LogsDispatchRegisters(h: Hub, tid: nat, id: SessionId)
    requires tid in h.readers
    ensures id !in h.streams && |h.streams| < 5 && h.readers[tid] !in h.t.cancelled ==>
      Step(h, LogsStart(tid, id)).streams == h.streams[id := Owner(h.nextStream, h.readers[tid])]
    ensures Step(h, LogsStop(tid, id)).streams == h.streams - {id}
  {
  }

  lemma ExecDispatchRegisters(h: Hub, tid: nat, id: SessionId)
    requires tid in h.readers && id !in h.exec.x.pending && id !in h.exec.x.sessions
    requires |h.exec.x.pending| + |h.exec.x.sessions| < 10
    ensures Step(h, ExecStart(tid, id)).exec.x.pending == h.exec.x.pending[id := Owner(h.exec.next, h.readers[tid])]
  {
  }

  /** The connect section with nothing in its way. */
  function Connect(h: Hub, sock: nat, tokenless: bool): Hub {
    var cleared := Step(Step(Step(h, Lock(sock, tokenless)), Mark), CloseExec);
    Step(Step(cleared, CloseLogs), InstallSocket)
  }

  /** From every state without dispatchers in progress it takes over: the new socket is open
      and latest, every owner is gone and cancelled, and the old socket's context has ended. */
  lemma ConnectTakesOver(h: Hub, sock: nat, tokenless: bool)
    requires h.section.None? && h.readers == map[] && sock !in h.tokenless
    ensures var v := Connect(h, sock, tokenless);
      && v.t.conn == Some(sock) && v.t.connected && v.t.pendingEnrollment == tokenless && v.latest == Some(sock)
      && ExecEmpty(v.exec.x) && v.streams == map[] && v.section.None?
      && v.tokenless == h.tokenless[sock := tokenless]
      && (h.t.cancel.Some? ==> h.t.cancel.value in v.t.cancelled && h.t.cancel.value in v.exec.x.deadSockets)
  {
    var a := Step(h, Lock(sock, tokenless));
    assert a == h.(section := Some(Section(sock, tokenless, Locked)));
    var b := Step(a, Mark);
    TakesDown(a);
    var c := Step(b, CloseExec);
    assert c.t == b.t && ExecEmpty(c.exec.x) && c.exec.x.deadSockets == b.exec.x.deadSockets;
    assert AtStage(c, ExecCleared) && c.section.value.sock == sock && c.section.value.tokenless == tokenless;
    var d := Step(c, CloseLogs);
    assert d.streams == map[] && AtStage(d, LogsCleared) && d.t == b.t && d.exec == c.exec;
  }

  lemma TakesDown(h: Hub)
    requires AtStage(h, Locked)
    ensures var b := Step(h, Mark);
      && b.section == Some(h.section.value.(stage := Marked)) && b.tokenless == h.tokenless
      && (h.t.cancel.Some? ==> h.t.cancel.value in b.t.cancelled && h.t.cancel.value in b.exec.x.deadSockets)
  {
    DisconnectsExactly(h.t, None);
  }

  /** The exec manager inside the hub only ever takes steps of its own protocol. */
  function ExecEvent(h: Hub, e: Event): Option<P.Event> {
    match e
    case ExecActs(u, act) => Some(P.Acts(u, act))
    case ExecCancel(u) => Some(P.Cancel(u))
    case ExecStart(tid, id) => if tid in h.readers then Some(P.Start(id, h.readers[tid])) else None
    case ExecClose(tid, id) => if tid in h.readers then Some(P.CloseRequest(id)) else None
    case CloseExec => if AtStage(h, Marked) then Some(P.Shutdown) else None
    case Mark => if AtStage(h, Locked) then Lost(h, None) else None
    case Disconnect(expected) => Lost(h, expected)
    case _ => None
  }

  function Lost(h: Hub, expected: Option<nat>): Option<P.Event> {
    if MarkDisconnected(h.t, expected) == h.t || h.t.cancel.None? then None else Some(P.LoseSocket(h.t.cancel.value))
  }

  lemma HubStepIsExecStep(h: Hub, e: Event)
    ensures var pe := ExecEvent(h, e);
      Step(h, e).exec == if pe.None? then h.exec else P.Step(h.exec, pe.value)
  {
  }

  /** So the exec protocol's guarantees hold in every run of the whole hub side. */
  lemma {:induction false} ExecProtocolHolds(h: Hub, es: seq<Event>)
    requires P.Inv(h.exec)
    ensures P.Inv(Run(h, es).exec)
    decreases |es|
  {
    if es != [] {
      HubStepIsExecStep(h, es[0]);
      if ExecEvent(h, es[0]).Some? {
        P.StepKeepsInv(h.exec, ExecEvent(h, es[0]).value);
      }
      ExecProtocolHolds(Step(h, es[0]), es[1..]);
    }
  }
}
