/** What becomes of exec sessions: closing one ends exactly that one, and nothing ends
    unannounced. */
module ExecOutcomes {
  import opened Text
  import opened DockerExec
  import opened ExecProtocol

  // ------------------------------------------------------------- closed means ended

  lemma FailedStays(p: Proto, e: Event, o: Owner)
    requires p.x.Failed(o)
    ensures Step(p, e).x.Failed(o)
  {
  }

  lemma {:induction false} RunFailedStays(p: Proto, es: seq<Event>, o: Owner)
    requires p.x.Failed(o)
    ensures Run(p, es).x.Failed(o)
    decreases |es|
  {
    if es != [] {
      FailedStays(p, es[0], o);
      RunFailedStays(Step(p, es[0]), es[1..], o);
    }
  }

  lemma CloseEnds(p: Proto, id: SessionId)
    ensures var q := Step(p, CloseRequest(id));
      && (id in p.x.sessions ==> q.x.Failed(p.x.sessions[id]))
      && (id in p.x.pending ==> q.x.Failed(p.x.pending[id])) && id !in q.x.pending
  {
  }

  /** After a close request for an ID, and whatever follows, the context of the reservation or
      session it had has ended, and the reservation is gone. */
  lemma ClosedOwnerHasEnded(es: seq<Event>, id: SessionId, more: seq<Event>)
    ensures var p := Run(Init, es);
      var q := Step(p, CloseRequest(id));
      && (id in p.x.sessions ==> Run(q, more).x.Failed(p.x.sessions[id]))
      && (id in p.x.pending ==> Run(q, more).x.Failed(p.x.pending[id]) && id !in q.x.pending)
  {
    var p := Run(Init, es);
    var q := Step(p, CloseRequest(id));
    CloseEnds(p, id);
    if id in p.x.sessions {
      RunFailedStays(q, more, p.x.sessions[id]);
    }
    if id in p.x.pending {
      RunFailedStays(q, more, p.x.pending[id]);
    }
  }

  /** A setup timer that fires ends the context of its start for good. */
  lemma TimeoutEndsStart(p: Proto, u: nat, more: seq<Event>)
    requires u in p.tasks
    ensures var pc := p.tasks[u].pc;
      pc.Working? || pc.Failing? || pc.FailSend? || pc.Finishing? ==>
        Run(Step(p, Acts(u, TimerFires)), more).x.Failed(p.tasks[u].owner)
    ensures p.tasks[u].pc.Working? ==> Run(Step(p, Acts(u, Hijacked(true))), more).x.Failed(p.tasks[u].owner)
  {
    var pc, o := p.tasks[u].pc, p.tasks[u].owner;
    if pc.Working? || pc.Failing? || pc.FailSend? || pc.Finishing? {
      RunFailedStays(Step(p, Acts(u, TimerFires)), more, o);
    }
    if pc.Working? {
      RunFailedStays(Step(p, Acts(u, Hijacked(true))), more, o);
    }
  }

  /** The same for every owner there is when everything is closed. */
  lemma ShutdownEndsAll(es: seq<Event>, id: SessionId, more: seq<Event>)
    ensures var p := Run(Init, es);
      var q := Step(p, Shutdown);
      && q.x.pending == map[] && q.x.sessions == map[]
      && (id in p.x.sessions ==> Run(q, more).x.Failed(p.x.sessions[id]))
      && (id in p.x.pending ==> Run(q, more).x.Failed(p.x.pending[id]))
  {
    var p := Run(Init, es);
    var q := Step(p, Shutdown);
    if id in p.x.sessions {
      assert p.x.sessions[id].uid in Uids(p.x.sessions);
      RunFailedStays(q, more, p.x.sessions[id]);
    }
    if id in p.x.pending {
      assert p.x.pending[id].uid in Uids(p.x.pending);
      RunFailedStays(q, more, p.x.pending[id]);
    }
  }

  /** A close request ends no owner of another ID and leaves every other entry in place. */
  lemma CloseSparesOthers(es: seq<Event>, id: SessionId, other: SessionId, o: Owner)
    requires other != id && (Run(Init, es).x.Pends(other, o) || Run(Init, es).x.Runs(other, o))
    ensures var p := Run(Init, es);
      var q := Step(p, CloseRequest(id));
      && (q.x.Failed(o) <==> p.x.Failed(o))
      && (q.x.Pends(other, o) <==> p.x.Pends(other, o)) && (q.x.Runs(other, o) <==> p.x.Runs(other, o))
  {
    RunKeepsInv(Init, es);
    CloseSpares(Run(Init, es), id, other, o);
  }

  lemma CloseSpares(p: Proto, id: SessionId, other: SessionId, o: Owner)
    requires Inv(p) && other != id && (p.x.Pends(other, o) || p.x.Runs(other, o))
    ensures var q := Step(p, CloseRequest(id));
      && (q.x.Failed(o) <==> p.x.Failed(o))
      && (q.x.Pends(other, o) <==> p.x.Pends(other, o)) && (q.x.Runs(other, o) <==> p.x.Runs(other, o))
  {
    assert Held(p, other, o);
    assert id in p.x.pending ==> Held(p, id, p.x.pending[id]) && p.x.pending[id].uid != o.uid;
    assert id in p.x.sessions ==> Held(p, id, p.x.sessions[id]) && p.x.sessions[id].uid != o.uid;
  }

  // ------------------------------------------------------------ nothing ends silently

  /** A published session is registered until its own cleanup or a close of everything, and
      one that is over has been announced closed unless everything was closed. */
  ghost predicate SessionAnnounced(p: Proto, dropped: set<nat>, u: nat) {
    u in p.published && u in p.tasks && u !in dropped ==>
      && (p.tasks[u].pc.Active() ==> p.x.Runs(p.tasks[u].id, p.tasks[u].owner))
      && (p.tasks[u].pc.Done? ==> Said(p, u, Closed))
  }

  /** A start about to finish without a session has been announced closed, or its context was
      ended from outside. A timeout is not from outside: it is announced. */
  ghost predicate StartAnnounced(p: Proto, u: nat) {
    u in p.tasks ==>
      var t := p.tasks[u];
      && (t.pc.Finishing? ==> Said(p, u, Closed) || u in p.x.cancelled || t.owner.sock in p.x.deadSockets)
      && (t.pc.Reserved? ==> u !in p.x.timedOut)
  }

  ghost predicate Announced(p: Proto, dropped: set<nat>) {
    (forall u :: SessionAnnounced(p, dropped, u)) && (forall u :: StartAnnounced(p, u))
  }

  /** The sessions that closing everything removed. */
  function DroppedBy(p: Proto, es: seq<Event>): set<nat>
    decreases |es|
  {
    if es == [] then {}
    else Drops(p, es[0]) + DroppedBy(Step(p, es[0]), es[1..])
  }

  function Drops(p: Proto, e: Event): set<nat> {
    if e.Shutdown? then Uids(p.x.sessions) else {}
  }

  /** What an act does to the registered sessions. */
  lemma MoveSessions(x: Exec, t: Task, act: Act)
    requires InPhase(x, t) && Bounded(x) && TaskMove(x, t, act).Some?
    ensures var m := TaskMove(x, t, act).value;
      || m.x.sessions == x.sessions
      || (m.pc.Published? && x.Pends(t.id, t.owner) && m.x.sessions == x.sessions[t.id := t.owner])
      || (t.pc.Ended? && x.Runs(t.id, t.owner) && m.x.sessions == x.sessions - {t.id} && m.pc.CloseSend?)
  {
  }

  /** How a session's task can come to its end. */
  lemma MoveEnds(x: Exec, t: Task, act: Act)
    requires InPhase(x, t) && TaskMove(x, t, act).Some? && !t.pc.Waiting()
    ensures var m := TaskMove(x, t, act).value;
      && (m.pc.Done? && t.pc.Active() ==> !x.Runs(t.id, t.owner))
      && (m.pc.Done? && !t.pc.Active() ==> m.say.Some? && m.say.value.Closed?)
      && (m.pc.Active() ==> t.pc.Active() && m.x.sessions == x.sessions)
  {
  }

  lemma OwnerOfAnother(p: Proto, u: nat, v: nat)
    requires Inv(p) && u in p.tasks && v in p.tasks && u != v
    ensures p.tasks[u].owner != p.tasks[v].owner
  {
  }

  /** The three things an act may do to the registered sessions. */
  ghost predicate OwnChange(x: Exec, t: Task, sessions: map<SessionId, Owner>) {
    || sessions == x.sessions
    || (x.Pends(t.id, t.owner) && sessions == x.sessions[t.id := t.owner])
    || (x.Runs(t.id, t.owner) && sessions == x.sessions - {t.id})
  }

  lemma OthersStayRegistered(x: Exec, t: Task, sessions: map<SessionId, Owner>, id: SessionId, o: Owner)
    requires Bounded(x) && OwnChange(x, t, sessions) && x.Runs(id, o) && o != t.owner
    ensures id in sessions && sessions[id] == o
  {
  }

  lemma MoveSessionAnnounced(p: Proto, dropped: set<nat>, u: nat, m: Move, v: nat)
    requires Inv(p) && SessionAnnounced(p, dropped, v) && u in p.tasks && OwnChange(p.x, p.tasks[u], m.x.sessions) && v != u
    ensures SessionAnnounced(Moved(p, u, m), dropped, v)
  {
    if v in p.tasks && v in p.published && v !in dropped {
      assert Said(p, v, Closed) ==> Said(Moved(p, u, m), v, Closed);
      if p.tasks[v].pc.Active() {
        OwnerOfAnother(p, u, v);
        OthersStayRegistered(p.x, p.tasks[u], m.x.sessions, p.tasks[v].id, p.tasks[v].owner);
      }
    }
  }

  lemma OwnSessionAnnounced(p: Proto, dropped: set<nat>, u: nat, act: Act)
    requires Inv(p) && SessionAnnounced(p, dropped, u) && u in p.tasks && TaskMove(p.x, p.tasks[u], act).Some?
    ensures SessionAnnounced(Moved(p, u, TaskMove(p.x, p.tasks[u], act).value), dropped, u)
  {
    var m := TaskMove(p.x, p.tasks[u], act).value;
    var q := Moved(p, u, m);
    TaskInPhase(p, u);
    MoveSessions(p.x, p.tasks[u], act);
    if u in p.published {
      MoveEnds(p.x, p.tasks[u], act);
      assert m.say.Some? ==> q.msgs[|p.msgs|] == Msg(u, m.say.value);
    }
  }

  lemma ActSessionAnnounced(p: Proto, dropped: set<nat>, u: nat, act: Act, v: nat)
    requires Inv(p) && SessionAnnounced(p, dropped, v) && u in p.tasks && TaskMove(p.x, p.tasks[u], act).Some?
    ensures SessionAnnounced(Moved(p, u, TaskMove(p.x, p.tasks[u], act).value), dropped, v)
  {
    if v == u {
      OwnSessionAnnounced(p, dropped, u, act);
    } else {
      TaskInPhase(p, u);
      MoveSessions(p.x, p.tasks[u], act);
      MoveSessionAnnounced(p, dropped, u, TaskMove(p.x, p.tasks[u], act).value, v);
    }
  }

  /** What can bring a start to its end without a session. */
  lemma MoveFinishes(x: Exec, t: Task, act: Act)
    requires TaskMove(x, t, act).Some? && (t.pc.Reserved? ==> t.owner.uid !in x.timedOut)
    ensures var m := TaskMove(x, t, act).value;
      && (m.pc.Finishing? ==>
            || t.pc.Finishing? || (m.say.Some? && m.say.value.Closed?)
            || t.owner.uid in m.x.cancelled || t.owner.sock in m.x.deadSockets || !x.Pends(t.id, t.owner))
      && !m.pc.Reserved?
      && x.cancelled <= m.x.cancelled && x.deadSockets <= m.x.deadSockets
      && (m.x.timedOut == x.timedOut || m.x.timedOut == x.timedOut + {t.owner.uid})
  {
  }

  /** A waiting start that is no longer pending was withdrawn, and so cancelled. */
  ghost predicate WithdrawnIsCancelled(p: Proto) {
    forall u :: u in p.tasks && p.tasks[u].pc.Waiting() && !p.x.Pends(p.tasks[u].id, p.tasks[u].owner) ==> u in p.x.cancelled
  }

  /** What an act does to the pending starts. */
  lemma MovePendings(x: Exec, t: Task, act: Act)
    requires TaskMove(x, t, act).Some?
    ensures var m := TaskMove(x, t, act).value;
      && (|| m.x.pending == x.pending
          || (x.Pends(t.id, t.owner) && m.x.pending == x.pending - {t.id} && !m.pc.Waiting()))
      && x.cancelled <= m.x.cancelled && (m.pc.Waiting() ==> t.pc.Waiting())
  {
  }

  lemma MoveKeepsWithdrawn(p: Proto, u: nat, m: Move)
    requires Inv(p) && WithdrawnIsCancelled(p) && u in p.tasks
    requires var t := p.tasks[u];
      && (|| m.x.pending == p.x.pending
          || (p.x.Pends(t.id, t.owner) && m.x.pending == p.x.pending - {t.id} && !m.pc.Waiting()))
      && p.x.cancelled <= m.x.cancelled && (m.pc.Waiting() ==> t.pc.Waiting())
    ensures WithdrawnIsCancelled(Moved(p, u, m))
  {
    var q := Moved(p, u, m);
    forall v | v in q.tasks && q.tasks[v].pc.Waiting() && !q.x.Pends(q.tasks[v].id, q.tasks[v].owner)
      ensures v in q.x.cancelled
    {
      if v != u {
        OwnerOfAnother(p, u, v);
      }
    }
  }

  lemma StepKeepsWithdrawn(p: Proto, e: Event)
    requires Inv(p) && WithdrawnIsCancelled(p)
    ensures WithdrawnIsCancelled(Step(p, e))
  {
    match e
    case Acts(u, act) =>
      if u in p.tasks && TaskMove(p.x, p.tasks[u], act).Some? {
        MovePendings(p.x, p.tasks[u], act);
        MoveKeepsWithdrawn(p, u, TaskMove(p.x, p.tasks[u], act).value);
      }
    case Shutdown =>
      forall v | v in p.tasks && p.x.Pends(p.tasks[v].id, p.tasks[v].owner)
        ensures v in Uids(p.x.pending)
      {
      }
    case _ =>
  }

  lemma ActStartAnnounced(p: Proto, u: nat, act: Act, v: nat)
    requires Inv(p) && WithdrawnIsCancelled(p) && StartAnnounced(p, u) && StartAnnounced(p, v)
    requires u in p.tasks && TaskMove(p.x, p.tasks[u], act).Some?
    ensures StartAnnounced(Moved(p, u, TaskMove(p.x, p.tasks[u], act).value), v)
  {
    var m := TaskMove(p.x, p.tasks[u], act).value;
    var q := Moved(p, u, m);
    MoveFinishes(p.x, p.tasks[u], act);
    TaskMoveAdvances(p.x, p.tasks[u], act);
    assert Said(p, v, Closed) ==> Said(q, v, Closed);
    assert m.say.Some? ==> q.msgs[|p.msgs|] == Msg(u, m.say.value);
    TaskInPhase(p, u);
    TaskMoveIsLocal(p.x, p.tasks[u], act);
  }

  lemma ActAnnounced(p: Proto, dropped: set<nat>, u: nat, act: Act)
    requires Inv(p) && WithdrawnIsCancelled(p) && Announced(p, dropped)
    ensures Announced(Step(p, Acts(u, act)), dropped)
  {
    if u in p.tasks && TaskMove(p.x, p.tasks[u], act).Some? {
      var q := Moved(p, u, TaskMove(p.x, p.tasks[u], act).value);
      forall v
        ensures SessionAnnounced(q, dropped, v) && StartAnnounced(q, v)
      {
        assert SessionAnnounced(p, dropped, v) && StartAnnounced(p, v) && StartAnnounced(p, u);
        ActSessionAnnounced(p, dropped, u, act, v);
        ActStartAnnounced(p, u, act, v);
      }
    }
  }

  lemma OtherAnnounced(p: Proto, dropped: set<nat>, e: Event, v: nat)
    requires Inv(p) && SessionAnnounced(p, dropped, v) && StartAnnounced(p, v) && !e.Acts?
    ensures SessionAnnounced(Step(p, e), dropped + Drops(p, e), v) && StartAnnounced(Step(p, e), v)
  {
    OthersSilent(p, e);
    assert p.x.timedOut == Step(p, e).x.timedOut;
    assert p.next !in p.x.timedOut;
    if e.Shutdown? && v in p.tasks && p.x.Runs(p.tasks[v].id, p.tasks[v].owner) {
      assert v in Uids(p.x.sessions);
    }
  }

  lemma StepAnnounced(p: Proto, dropped: set<nat>, e: Event)
    requires Inv(p) && WithdrawnIsCancelled(p) && Announced(p, dropped)
    ensures Announced(Step(p, e), dropped + Drops(p, e))
  {
    if e.Acts? {
      ActAnnounced(p, dropped, e.u, e.act);
      assert dropped + {} == dropped;
    } else {
      forall v
        ensures SessionAnnounced(Step(p, e), dropped + Drops(p, e), v) && StartAnnounced(Step(p, e), v)
      {
        assert SessionAnnounced(p, dropped, v) && StartAnnounced(p, v);
        OtherAnnounced(p, dropped, e, v);
      }
    }
  }

  lemma UnionAssociative(a: set<nat>, b: set<nat>, c: set<nat>)
    ensures a + b + c == a + (b + c)
  {
  }

  lemma {:induction false} RunAnnounced(p: Proto, dropped: set<nat>, es: seq<Event>)
    requires Inv(p) && WithdrawnIsCancelled(p) && Announced(p, dropped)
    ensures Announced(Run(p, es), dropped + DroppedBy(p, es))
    decreases |es|
  {
    if es == [] {
      assert dropped + {} == dropped;
    } else {
      var now := Drops(p, es[0]);
      StepAnnounced(p, dropped, es[0]);
      StepKeepsInv(p, es[0]);
      StepKeepsWithdrawn(p, es[0]);
      RunAnnounced(Step(p, es[0]), dropped + now, es[1..]);
      UnionAssociative(dropped, now, DroppedBy(Step(p, es[0]), es[1..]));
    }
  }

  /** In every run: a session that is over was announced closed unless closing everything
      removed it; until then it stays registered; and a start that ends without a session was
      announced closed unless its context was ended from outside. */
  lemma NothingEndsSilently(es: seq<Event>)
    ensures Announced(Run(Init, es), DroppedBy(Init, es))
  {
    RunAnnounced(Init, {}, es);
    assert {} + DroppedBy(Init, es) == DroppedBy(Init, es);
  }

  // ---------------------------------------------------------------- no context is leaked

  /** The context of a task that is over, or has only its closed message left, was cancelled. */
  ghost predicate OverIsCancelled(p: Proto) {
    forall u :: u in p.tasks && (p.tasks[u].pc.Done? || p.tasks[u].pc.CloseSend?) ==> u in p.x.cancelled
  }

  lemma MoveCancels(x: Exec, t: Task, act: Act)
    requires TaskMove(x, t, act).Some?
    ensures var m := TaskMove(x, t, act).value;
      && x.cancelled <= m.x.cancelled
      && (m.pc.Done? || m.pc.CloseSend? ==>
            t.owner.uid in m.x.cancelled || t.pc.CloseSend? || (t.pc.Finishing? && !x.Pends(t.id, t.owner)))
  {
  }

  lemma MoveOverIsCancelled(p: Proto, u: nat, m: Move)
    requires Inv(p) && WithdrawnIsCancelled(p) && OverIsCancelled(p) && u in p.tasks && p.x.cancelled <= m.x.cancelled
    requires m.pc.Done? || m.pc.CloseSend? ==>
      u in m.x.cancelled || p.tasks[u].pc.CloseSend?
      || (p.tasks[u].pc.Finishing? && !p.x.Pends(p.tasks[u].id, p.tasks[u].owner))
    ensures OverIsCancelled(Moved(p, u, m))
  {
  }

  lemma StepOverIsCancelled(p: Proto, e: Event)
    requires Inv(p) && WithdrawnIsCancelled(p) && OverIsCancelled(p)
    ensures OverIsCancelled(Step(p, e))
  {
    if e.Acts? {
      if e.u in p.tasks && TaskMove(p.x, p.tasks[e.u], e.act).Some? {
        MoveCancels(p.x, p.tasks[e.u], e.act);
        MoveOverIsCancelled(p, e.u, TaskMove(p.x, p.tasks[e.u], e.act).value);
      }
    } else {
      OthersSilent(p, e);
      assert p.x.cancelled <= Step(p, e).x.cancelled;
    }
  }

  lemma {:induction false} RunOverIsCancelled(p: Proto, es: seq<Event>)
    requires Inv(p) && WithdrawnIsCancelled(p) && OverIsCancelled(p)
    ensures OverIsCancelled(Run(p, es))
    decreases |es|
  {
    if es != [] {
      StepKeepsInv(p, es[0]);
      StepKeepsWithdrawn(p, es[0]);
      StepOverIsCancelled(p, es[0]);
      RunOverIsCancelled(Step(p, es[0]), es[1..]);
    }
  }

  /** In every run, no start and no session is over with its context still open. */
  lemma NoContextLeaks(es: seq<Event>)
    ensures OverIsCancelled(Run(Init, es))
  {
    RunOverIsCancelled(Init, es);
  }

  /** Each sending act sends exactly its message. */
  lemma SaysItsMessage(p: Proto, u: nat)
    requires u in p.tasks
    ensures var pc := p.tasks[u].pc;
      && (pc.Published? ==> Step(p, Acts(u, SendStarted)).msgs == p.msgs + [Msg(u, Started)])
      && (pc.Running? ==> Step(p, Acts(u, SendData)).msgs == p.msgs + [Msg(u, Data)])
      && (pc.CloseSend? ==> Step(p, Acts(u, SendClosed)).msgs == p.msgs + [Msg(u, Closed)])
      && (pc.FailSend? ==> Step(p, Acts(u, SendFailure)).msgs == p.msgs + [Msg(u, Closed)])
  {
  }

  // -------------------------------------------------------------- starts do get there

  /** A start that nothing disturbs, up to its first message. */
  function StartAlone(p: Proto, id: SessionId, sock: nat): Proto {
    var u := p.next;
    var asked := Step(p, Start(id, sock));
    var set_up := Step(Step(asked, Acts(u, Begin)), Acts(u, Hijacked(false)));
    Step(Step(set_up, Acts(u, TryPublish)), Acts(u, SendStarted))
  }

  lemma Asks(p: Proto, id: SessionId, sock: nat)
    requires id !in p.x.sessions && id !in p.x.pending && |p.x.sessions| + |p.x.pending| < 10
    ensures var o, q := Owner(p.next, sock), Step(p, Start(id, sock));
      && q.x == p.x.(pending := p.x.pending[id := o]) && p.next in q.tasks && q.tasks[p.next] == Task(id, o, Reserved)
      && q.msgs == p.msgs
  {
  }

  lemma SetsUp(p: Proto, id: SessionId, o: Owner)
    requires o.uid in p.tasks && p.tasks[o.uid] == Task(id, o, Reserved) && !p.x.Failed(o)
    ensures var q := Step(Step(p, Acts(o.uid, Begin)), Acts(o.uid, Hijacked(false)));
      q.x == p.x && o.uid in q.tasks && q.tasks[o.uid] == Task(id, o, Ready) && q.msgs == p.msgs
  {
    var b := Step(p, Acts(o.uid, Begin));
    assert b.x == p.x && b.tasks[o.uid] == Task(id, o, Working) && b.msgs == p.msgs;
  }

  lemma Publishes(p: Proto, id: SessionId, o: Owner)
    requires o.uid in p.tasks && p.tasks[o.uid] == Task(id, o, Ready) && p.x.Pends(id, o) && !p.x.Failed(o)
    ensures var q := Step(Step(p, Acts(o.uid, TryPublish)), Acts(o.uid, SendStarted));
      && q.x == p.x.(sessions := p.x.sessions[id := o], pending := p.x.pending - {id})
      && q.msgs == p.msgs + [Msg(o.uid, Started)]
  {
    var q := Step(p, Acts(o.uid, TryPublish));
    assert q.x == p.x.(sessions := p.x.sessions[id := o], pending := p.x.pending - {id});
    assert q.tasks[o.uid] == Task(id, o, Published) && q.msgs == p.msgs;
  }

  /** A start that finds its ID and one of ten places free, on a live socket, reserves it; left
      alone it becomes a session that says it started. */
  lemma UndisturbedStartRuns(p: Proto, id: SessionId, sock: nat)
    requires id !in p.x.sessions && id !in p.x.pending && |p.x.sessions| + |p.x.pending| < 10
    requires !p.x.Failed(Owner(p.next, sock))
    ensures var q, o := StartAlone(p, id, sock), Owner(p.next, sock);
      && q.x.sessions == p.x.sessions[id := o] && q.x.pending == p.x.pending
      && q.msgs == p.msgs + [Msg(o.uid, Started)]
  {
    var o := Owner(p.next, sock);
    Asks(p, id, sock);
    var a := Step(p, Start(id, sock));
    SetsUp(a, id, o);
    var b := Step(Step(a, Acts(o.uid, Begin)), Acts(o.uid, Hijacked(false)));
    Publishes(b, id, o);
    assert p.x.pending[id := o] - {id} == p.x.pending;
  }

  /** A setup that fails while its reservation stands, up to the end of its goroutine. */
  function SetupFailsAlone(p: Proto, u: nat): Proto {
    var failing := Step(Step(p, Acts(u, SetupFails)), Acts(u, FailCheck));
    Step(Step(failing, Acts(u, SendFailure)), Acts(u, Finish))
  }

  /** It is announced closed and gives its place back. */
  lemma FailedSetupIsAnnounced(p: Proto, id: SessionId, o: Owner)
    requires o.uid in p.tasks && p.tasks[o.uid] == Task(id, o, Working) && p.x.Pends(id, o)
    requires !p.x.Failed(o) || o.uid in p.x.timedOut
    ensures var q := SetupFailsAlone(p, o.uid);
      && q.msgs == p.msgs + [Msg(o.uid, Closed)] && q.x.pending == p.x.pending - {id} && q.x.sessions == p.x.sessions
      && o.uid in q.tasks && q.tasks[o.uid].pc.Done?
  {
    var u := o.uid;
    var a := Step(p, Acts(u, SetupFails));
    assert a.x == p.x && a.tasks[u] == Task(id, o, Failing) && a.msgs == p.msgs;
    var b := Step(a, Acts(u, FailCheck));
    assert b.x == p.x && b.tasks[u] == Task(id, o, FailSend) && b.msgs == p.msgs;
    var c := Step(b, Acts(u, SendFailure));
    assert c.x == p.x && c.tasks[u] == Task(id, o, Finishing) && c.msgs == p.msgs + [Msg(u, Closed)];
  }

  /** A session whose output ends, up to its last message. */
  function EndsAlone(p: Proto, u: nat): Proto {
    Step(Step(Step(p, Acts(u, StreamEnds)), Acts(u, CleanUp)), Acts(u, SendClosed))
  }

  /** It is taken out, cancelled and announced closed. */
  lemma EndedSessionIsAnnounced(p: Proto, id: SessionId, o: Owner)
    requires o.uid in p.tasks && p.tasks[o.uid] == Task(id, o, Running) && p.x.Runs(id, o)
    ensures var q := EndsAlone(p, o.uid);
      && q.msgs == p.msgs + [Msg(o.uid, Closed)] && q.x.sessions == p.x.sessions - {id} && q.x.pending == p.x.pending
      && o.uid in q.x.cancelled && o.uid in q.tasks && q.tasks[o.uid].pc.Done?
  {
    var u := o.uid;
    var a := Step(p, Acts(u, StreamEnds));
    assert a.x == p.x && a.tasks[u] == Task(id, o, Ended) && a.msgs == p.msgs;
    var b := Step(a, Acts(u, CleanUp));
    assert b.x.sessions == p.x.sessions - {id} && b.tasks[u] == Task(id, o, CloseSend) && b.msgs == p.msgs;
  }
}
