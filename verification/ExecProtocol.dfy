/** Every interleaving of exec starts with closes, expiries, reconnects and session ends. */
module ExecProtocol {
  import opened Text
  import opened DockerExec

  /** Where the goroutines of one reservation are. `Failing` has seen an error, `Ready`
      holds a hijacked connection, `Finishing` runs startExec's deferred cleanup. */
  datatype Pc =
    | Reserved | Working | Failing | FailSend | Ready | Finishing  // startExec
    | Published | Running | Ended                                  // the session's goroutines
    | CloseSend | Done
  {
    predicate Waiting() {
      Reserved? || Working? || Failing? || FailSend? || Ready? || Finishing?
    }
    predicate Active() {
      Published? || Running? || Ended?
    }
  }

  datatype Task = Task(id: SessionId, owner: Owner, pc: Pc)

  datatype Kind = Started | Data | Closed
  datatype Msg = Msg(uid: nat, kind: Kind)

  /** What a reservation's own goroutines and timer do, one lock section or send each. */
  datatype Act =
    | TimerFires
    | Begin | SetupFails | FailCheck | SendFailure | Hijacked(timerLost: bool) | TryPublish | Finish
    | SendStarted | SendData | StreamEnds | CleanUp | SendClosed

  datatype Move = Move(pc: Pc, x: Exec, say: Option<Kind>)

  /** Where an act takes its task, if the act is enabled there. */
  function NextPc(x: Exec, t: Task, act: Act): Option<Pc> {
    var o := t.owner;
    match act
    case TimerFires =>
      // Armed by Begin, stopped by the hijacked connection.
      if t.pc.Working? || t.pc.Failing? || t.pc.FailSend? || t.pc.Finishing? then Some(t.pc) else None
    case Begin => if !t.pc.Reserved? then None else Some(if x.Failed(o) then Finishing else Working)
    case SetupFails => if !t.pc.Working? then None else Some(Failing)
    case FailCheck =>
      if !t.pc.Failing? then None
      else Some(if x.Pends(t.id, o) && (!x.Failed(o) || o.uid in x.timedOut) then FailSend else Finishing)
    case SendFailure => if !t.pc.FailSend? then None else Some(Finishing)
    case Hijacked(lost) => if !t.pc.Working? then None else Some(if lost || x.Failed(o) then Failing else Ready)
    case TryPublish =>
      if !t.pc.Ready? then None else Some(if x.Pends(t.id, o) && !x.Failed(o) then Published else Finishing)
    case Finish => if !t.pc.Finishing? then None else Some(Done)
    case SendStarted => if !t.pc.Published? then None else Some(Running)
    case SendData => if !t.pc.Running? then None else Some(Running)
    case StreamEnds => if !t.pc.Running? then None else Some(Ended)
    case CleanUp => if !t.pc.Ended? then None else Some(if x.Runs(t.id, o) then CloseSend else Done)
    case SendClosed => if !t.pc.CloseSend? then None else Some(Done)
  }

  /** What an enabled act does to the manager. */
  function Effect(x: Exec, id: SessionId, o: Owner, act: Act): Exec {
    match act
    case TimerFires => Expire(x, o)
    case Hijacked(lost) => if lost then Expire(x, o) else x
    case TryPublish => Publish(x, id, o)
    case Finish => Withdraw(x, id, o)
    case CleanUp => Cleanup(x, id, o)
    case _ => x
  }

  function Says(act: Act): Option<Kind> {
    match act
    case SendStarted => Some(Started)
    case SendData => Some(Data)
    case SendFailure => Some(Closed)
    case SendClosed => Some(Closed)
    case _ => None
  }

  function TaskMove(x: Exec, t: Task, act: Act): Option<Move> {
    var pc := NextPc(x, t, act);
    if pc.None? then None else Some(Move(pc.value, Effect(x, t.id, t.owner, act), Says(act)))
  }

  /** The manager, its tasks by reservation, and a history: the messages they sent, and
      which reservations became sessions or were withdrawn by a close. */
  datatype Proto = Proto(
    x: Exec, tasks: map<nat, Task>, next: nat, msgs: seq<Msg>, published: set<nat>, withdrawn: set<nat>)

  datatype Event =
    | Start(id: SessionId, sock: nat)
    | CloseRequest(id: SessionId)
    | Shutdown
    | LoseSocket(sock: nat)
    | Cancel(u: nat)
    | Acts(u: nat, act: Act)

  function Moved(p: Proto, u: nat, m: Move): Proto
    requires u in p.tasks
  {
    Proto(m.x, p.tasks[u := p.tasks[u].(pc := m.pc)], p.next,
          p.msgs + (if m.say.Some? then [Msg(u, m.say.value)] else []),
          p.published + (if m.pc.Published? then {u} else {}), p.withdrawn)
  }

  function Step(p: Proto, e: Event): Proto {
    match e
    case Start(id, sock) =>
      var o := Owner(p.next, sock);
      if !CanReserve(p.x, id) then p
      else p.(x := Reserve(p.x, id, o), tasks := p.tasks[p.next := Task(id, o, Reserved)], next := p.next + 1)
    case CloseRequest(id) =>
      p.(x := CloseOne(p.x, id), withdrawn := p.withdrawn + if id in p.x.pending then {p.x.pending[id].uid} else {})
    case Shutdown => p.(x := CloseAll(p.x), withdrawn := p.withdrawn + Uids(p.x.pending))
    case LoseSocket(sock) => p.(x := p.x.(deadSockets := p.x.deadSockets + {sock}))
    case Cancel(u) => p.(x := p.x.(cancelled := p.x.cancelled + {u}))
    case Acts(u, act) =>
      if u !in p.tasks then p
      else
        var m := TaskMove(p.x, p.tasks[u], act);
        if m.None? then p else Moved(p, u, m.value)
  }

  function Run(p: Proto, es: seq<Event>): Proto
    decreases |es|
  {
    if es == [] then p else Run(Step(p, es[0]), es[1..])
  }

  const Init := Proto(Exec(map[], map[], {}, {}, {}), map[], 0, [], {}, {})

  // ------------------------------------------------- what one act does, locally

  ghost predicate Fit(pending: map<SessionId, Owner>, sessions: map<SessionId, Owner>) {
    (forall id :: id in pending ==> id !in sessions) && |pending| + |sessions| <= MAX_SESSIONS
  }

  ghost predicate Bounded(x: Exec) {
    Fit(x.pending, x.sessions)
  }

  ghost predicate SubMap(a: map<SessionId, Owner>, b: map<SessionId, Owner>) {
    forall id :: id in a ==> id in b && a[id] == b[id]
  }

  /** A task that holds an entry is in a matching phase. */
  ghost predicate InPhase(x: Exec, t: Task) {
    (x.Pends(t.id, t.owner) ==> t.pc.Waiting()) && (x.Runs(t.id, t.owner) ==> t.pc.Active())
  }

  ghost predicate PublishesOwn(x: Exec, t: Task, m: Move) {
    && m.pc.Published? && x.Pends(t.id, t.owner) && !x.Failed(t.owner)
    && m.x.pending == x.pending - {t.id} && m.x.sessions == x.sessions[t.id := t.owner] && m.x.timedOut == x.timedOut
  }

  /** Every act either publishes its own reservation or only removes entries. */
  ghost predicate LocalMove(x: Exec, t: Task, m: Move) {
    && InPhase(m.x, t.(pc := m.pc))
    && SubMap(m.x.pending, x.pending)
    && (PublishesOwn(x, t, m) || (SubMap(m.x.sessions, x.sessions) && !m.pc.Published?))
    && (m.pc.Waiting() ==> t.pc.Waiting())
    && (m.pc.Active() || m.pc.CloseSend? ==> t.pc.Active() || m.pc.Published?)
    && (m.x.timedOut == x.timedOut || (m.x.timedOut == x.timedOut + {t.owner.uid} && t.pc.Waiting()))
  }

  lemma PublishIsLocal(x: Exec, t: Task)
    requires InPhase(x, t) && Bounded(x) && t.pc.Ready?
    ensures LocalMove(x, t, TaskMove(x, t, TryPublish).value)
  {
  }

  lemma FinishIsLocal(x: Exec, t: Task)
    requires InPhase(x, t) && Bounded(x) && t.pc.Finishing?
    ensures LocalMove(x, t, TaskMove(x, t, Finish).value)
  {
  }

  lemma CleanUpIsLocal(x: Exec, t: Task)
    requires InPhase(x, t) && Bounded(x) && t.pc.Ended?
    ensures LocalMove(x, t, TaskMove(x, t, CleanUp).value)
  {
  }

  lemma TaskMoveIsLocal(x: Exec, t: Task, act: Act)
    requires InPhase(x, t) && Bounded(x) && TaskMove(x, t, act).Some?
    ensures LocalMove(x, t, TaskMove(x, t, act).value)
  {
    match act
    case TryPublish => PublishIsLocal(x, t);
    case Finish => FinishIsLocal(x, t);
    case CleanUp => CleanUpIsLocal(x, t);
    case _ =>
      // The maps do not change.
      var m := TaskMove(x, t, act).value;
      assert m.x.pending == x.pending && m.x.sessions == x.sessions;
  }

  lemma RemoveFits(pending: map<SessionId, Owner>, sessions: map<SessionId, Owner>, id: SessionId)
    requires Fit(pending, sessions)
    ensures Fit(pending - {id}, sessions)
    ensures Fit(pending, sessions - {id})
  {
    RemoveOne(pending, id);
    RemoveOne(sessions, id);
  }

  lemma PublishFits(pending: map<SessionId, Owner>, sessions: map<SessionId, Owner>, id: SessionId, o: Owner)
    requires Fit(pending, sessions) && id in pending
    ensures Fit(pending - {id}, sessions[id := o])
  {
    RemoveOne(pending, id);
    assert |sessions[id := o]| == |sessions| + 1;
  }

  lemma PublishBounded(x: Exec, id: SessionId, o: Owner)
    requires Bounded(x)
    ensures Bounded(Publish(x, id, o))
  {
    if x.Pends(id, o) {
      PublishFits(x.pending, x.sessions, id, o);
    }
  }

  lemma WithdrawBounded(x: Exec, id: SessionId, o: Owner)
    requires Bounded(x)
    ensures Bounded(Withdraw(x, id, o)) && Bounded(Cleanup(x, id, o))
  {
    RemoveFits(x.pending, x.sessions, id);
  }

  lemma EffectBounded(x: Exec, id: SessionId, o: Owner, act: Act)
    requires Bounded(x)
    ensures Bounded(Effect(x, id, o, act))
  {
    var x' := Effect(x, id, o, act);
    if act.TryPublish? {
      PublishBounded(x, id, o);
    } else if act.Finish? || act.CleanUp? {
      WithdrawBounded(x, id, o);
    } else {
      assert x' == x || x' == Expire(x, o);
    }
  }

  // --------------------------------------------------------------- the invariant

  ghost predicate Held(p: Proto, id: SessionId, o: Owner) {
    o.uid in p.tasks && p.tasks[o.uid].id == id && p.tasks[o.uid].owner == o
  }

  ghost predicate PendingOk(p: Proto) {
    forall id :: id in p.x.pending ==>
      Held(p, id, p.x.pending[id]) && p.tasks[p.x.pending[id].uid].pc.Waiting()
  }

  ghost predicate SessionsOk(p: Proto) {
    forall id :: id in p.x.sessions ==>
      Held(p, id, p.x.sessions[id]) && p.tasks[p.x.sessions[id].uid].pc.Active()
  }

  ghost predicate EntriesOk(p: Proto) {
    && Bounded(p.x) && PendingOk(p) && SessionsOk(p)
    && (forall u :: u in p.tasks ==> u < p.next && p.tasks[u].owner.uid == u)
  }

  lemma TaskInPhase(p: Proto, u: nat)
    requires EntriesOk(p) && u in p.tasks
    ensures InPhase(p.x, p.tasks[u])
  {
  }

  lemma MovePendingOk(p: Proto, u: nat, m: Move)
    requires EntriesOk(p) && u in p.tasks && LocalMove(p.x, p.tasks[u], m)
    ensures PendingOk(Moved(p, u, m))
  {
    var p' := Moved(p, u, m);
    forall id | id in p'.x.pending
      ensures Held(p', id, p'.x.pending[id]) && p'.tasks[p'.x.pending[id].uid].pc.Waiting()
    {
      assert Held(p, id, p.x.pending[id]);
    }
  }

  lemma MoveSessionsOk(p: Proto, u: nat, m: Move)
    requires EntriesOk(p) && u in p.tasks && LocalMove(p.x, p.tasks[u], m)
    ensures SessionsOk(Moved(p, u, m))
  {
    var p' := Moved(p, u, m);
    forall id | id in p'.x.sessions
      ensures Held(p', id, p'.x.sessions[id]) && p'.tasks[p'.x.sessions[id].uid].pc.Active()
    {
      assert id in p.x.sessions ==> Held(p, id, p.x.sessions[id]);
    }
  }

  lemma MoveEntriesOk(p: Proto, u: nat, m: Move)
    requires EntriesOk(p) && u in p.tasks && Bounded(m.x) && LocalMove(p.x, p.tasks[u], m)
    ensures EntriesOk(Moved(p, u, m))
  {
    MovePendingOk(p, u, m);
    MoveSessionsOk(p, u, m);
  }

  lemma ShrinkEntriesOk(p: Proto, x: Exec, withdrawn: set<nat>)
    requires EntriesOk(p) && SubMap(x.pending, p.x.pending) && SubMap(x.sessions, p.x.sessions) && Bounded(x)
    ensures EntriesOk(p.(x := x, withdrawn := withdrawn))
  {
    var p' := p.(x := x, withdrawn := withdrawn);
    assert PendingOk(p');
    assert SessionsOk(p');
  }

  lemma ReserveFits(pending: map<SessionId, Owner>, sessions: map<SessionId, Owner>, id: SessionId, o: Owner)
    requires Fit(pending, sessions) && id !in pending && id !in sessions && |pending| + |sessions| < MAX_SESSIONS
    ensures Fit(pending[id := o], sessions)
  {
    assert |pending[id := o]| == |pending| + 1;
  }

  lemma StartPendingOk(p: Proto, id: SessionId, o: Owner)
    requires EntriesOk(p) && o.uid == p.next
    ensures var p' := p.(x := p.x.(pending := p.x.pending[id := o]), tasks := p.tasks[p.next := Task(id, o, Reserved)],
                         next := p.next + 1);
      PendingOk(p') && SessionsOk(p')
  {
  }

  lemma StartEntriesOk(p: Proto, id: SessionId, sock: nat)
    requires EntriesOk(p)
    ensures EntriesOk(Step(p, Start(id, sock)))
  {
    if CanReserve(p.x, id) {
      ReserveFits(p.x.pending, p.x.sessions, id, Owner(p.next, sock));
      StartPendingOk(p, id, Owner(p.next, sock));
    }
  }

  lemma CloseEntriesOk(p: Proto, id: SessionId)
    requires EntriesOk(p)
    ensures EntriesOk(Step(p, CloseRequest(id)))
  {
    RemoveFits(p.x.pending, p.x.sessions, id);
    ShrinkEntriesOk(p, CloseOne(p.x, id), Step(p, CloseRequest(id)).withdrawn);
  }

  lemma ActEntriesOk(p: Proto, u: nat, act: Act)
    requires EntriesOk(p)
    ensures EntriesOk(Step(p, Acts(u, act)))
  {
    if u in p.tasks && TaskMove(p.x, p.tasks[u], act).Some? {
      TaskInPhase(p, u);
      EffectBounded(p.x, p.tasks[u].id, p.tasks[u].owner, act);
      TaskMoveIsLocal(p.x, p.tasks[u], act);
      MoveEntriesOk(p, u, TaskMove(p.x, p.tasks[u], act).value);
    }
  }

  lemma StepEntriesOk(p: Proto, e: Event)
    requires EntriesOk(p)
    ensures EntriesOk(Step(p, e))
  {
    match e
    case Start(id, sock) => StartEntriesOk(p, id, sock);
    case CloseRequest(id) => CloseEntriesOk(p, id);
    case Acts(u, act) => ActEntriesOk(p, u, act);
    case _ => ShrinkEntriesOk(p, Step(p, e).x, Step(p, e).withdrawn);
  }

  /** A task is active exactly between its publication and its end. */
  ghost predicate PhasesOk(p: Proto) {
    && (forall u :: u in p.published ==> u in p.tasks && !p.tasks[u].pc.Waiting())
    && (forall u :: u in p.tasks && (p.tasks[u].pc.Active() || p.tasks[u].pc.CloseSend?) ==> u in p.published)
  }

  /** No published reservation was withdrawn or timed out before. */
  ghost predicate Untouched(p: Proto) {
    && p.published !! p.withdrawn && p.published !! p.x.timedOut
    && (forall id :: id in p.x.pending ==> p.x.pending[id].uid !in p.withdrawn)
    && (forall u :: u in p.withdrawn || u in p.x.timedOut ==> u in p.tasks)
  }

  ghost predicate FatesOk(p: Proto) {
    PhasesOk(p) && Untouched(p)
  }

  lemma MovePhasesOk(p: Proto, u: nat, m: Move)
    requires EntriesOk(p) && PhasesOk(p) && u in p.tasks && LocalMove(p.x, p.tasks[u], m)
    ensures PhasesOk(Moved(p, u, m))
  {
  }

  lemma MoveUntouched(p: Proto, u: nat, m: Move)
    requires EntriesOk(p) && FatesOk(p) && u in p.tasks && LocalMove(p.x, p.tasks[u], m)
    ensures Untouched(Moved(p, u, m))
  {
    if m.pc.Published? {
      assert p.x.Pends(p.tasks[u].id, p.tasks[u].owner) && u !in p.x.timedOut && u !in p.withdrawn;
    }
  }

  /** Reservations that leave the pending map by a close were never published. */
  lemma WithdrawFatesOk(p: Proto, x: Exec, gone: set<nat>)
    requires EntriesOk(p) && FatesOk(p) && SubMap(x.pending, p.x.pending) && x.timedOut == p.x.timedOut
    requires forall u :: u in gone ==> exists id :: id in p.x.pending && p.x.pending[id].uid == u
    requires forall id :: id in x.pending ==> x.pending[id].uid !in gone
    ensures FatesOk(p.(x := x, withdrawn := p.withdrawn + gone))
  {
    forall u | u in gone
      ensures u in p.tasks && p.tasks[u].pc.Waiting()
    {
      var id :| id in p.x.pending && p.x.pending[id].uid == u;
      assert Held(p, id, p.x.pending[id]);
    }
  }

  lemma CloseFatesOk(p: Proto, id: SessionId)
    requires EntriesOk(p) && FatesOk(p)
    ensures FatesOk(Step(p, CloseRequest(id)))
  {
    var gone := if id in p.x.pending then {p.x.pending[id].uid} else {};
    forall k | k in CloseOne(p.x, id).pending
      ensures p.x.pending[k].uid !in gone
    {
      assert Held(p, k, p.x.pending[k]);
      assert id in p.x.pending ==> Held(p, id, p.x.pending[id]);
    }
    WithdrawFatesOk(p, CloseOne(p.x, id), gone);
  }

  lemma ActFatesOk(p: Proto, u: nat, act: Act)
    requires EntriesOk(p) && FatesOk(p)
    ensures FatesOk(Step(p, Acts(u, act)))
  {
    if u in p.tasks && TaskMove(p.x, p.tasks[u], act).Some? {
      TaskInPhase(p, u);
      TaskMoveIsLocal(p.x, p.tasks[u], act);
      MovePhasesOk(p, u, TaskMove(p.x, p.tasks[u], act).value);
      MoveUntouched(p, u, TaskMove(p.x, p.tasks[u], act).value);
    }
  }

  lemma StartFatesOk(p: Proto, id: SessionId, sock: nat)
    requires EntriesOk(p) && FatesOk(p)
    ensures FatesOk(Step(p, Start(id, sock)))
  {
  }

  lemma StepFatesOk(p: Proto, e: Event)
    requires EntriesOk(p) && FatesOk(p)
    ensures FatesOk(Step(p, e))
  {
    match e
    case Start(id, sock) => StartFatesOk(p, id, sock);
    case CloseRequest(id) => CloseFatesOk(p, id);
    case Shutdown => WithdrawFatesOk(p, CloseAll(p.x), Uids(p.x.pending));
    case Acts(u, act) => ActFatesOk(p, u, act);
    case _ =>
  }

  // ------------------------------------------------------------------ messages

  ghost predicate Said(p: Proto, u: nat, kind: Kind) {
    Msg(u, kind) in p.msgs
  }

  /** How far a task whose message is in the history has come. */
  ghost predicate SaidOk(p: Proto, msg: Msg) {
    && msg.uid in p.tasks
    && var pc := p.tasks[msg.uid].pc;
       if msg.kind.Closed? then pc.Finishing? || pc.Done?
       else msg.uid in p.published && (pc.Running? || pc.Ended? || pc.CloseSend? || pc.Done?)
  }

  /** Nothing follows a reservation's closed message, a session's first message is its
      started message, and that is sent once. */
  ghost predicate Ordered(msgs: seq<Msg>, published: set<nat>) {
    && (forall i, j :: 0 <= i < j < |msgs| && msgs[i].uid == msgs[j].uid ==> !msgs[i].kind.Closed? && !msgs[j].kind.Started?)
    && (forall j :: 0 <= j < |msgs| && msgs[j].uid in published && !msgs[j].kind.Started? ==>
          Msg(msgs[j].uid, Started) in msgs[..j])
  }

  ghost predicate HasStarted(p: Proto) {
    forall u :: u in p.tasks && (p.tasks[u].pc.Running? || p.tasks[u].pc.Ended? || p.tasks[u].pc.CloseSend?) ==>
      Said(p, u, Started)
  }

  ghost predicate MessagesOk(p: Proto) {
    && Ordered(p.msgs, p.published) && HasStarted(p)
    && (forall i :: 0 <= i < |p.msgs| ==> SaidOk(p, p.msgs[i]))
  }

  /** Phases only advance, and each kind of message has its one place. */
  ghost predicate Advances(t: Task, m: Move) {
    && !t.pc.Done?
    && (t.pc.Finishing? ==> m.pc.Finishing? || m.pc.Done?)
    && (t.pc.Running? || t.pc.Ended? || t.pc.CloseSend? ==> m.pc.Running? || m.pc.Ended? || m.pc.CloseSend? || m.pc.Done?)
    && (m.pc.Running? || m.pc.Ended? || m.pc.CloseSend? ==>
          t.pc.Running? || t.pc.Ended? || (t.pc.Published? && m.say.Some? && m.say.value.Started?))
    && (m.pc.Published? ==> t.pc.Ready? && m.say.None?)
    && (m.say.Some? ==>
          match m.say.value
          case Started => t.pc.Published? && m.pc.Running?
          case Data => t.pc.Running? && m.pc.Running?
          case Closed => (t.pc.FailSend? && m.pc.Finishing?) || (t.pc.CloseSend? && m.pc.Done?))
  }

  lemma TaskMoveAdvances(x: Exec, t: Task, act: Act)
    requires TaskMove(x, t, act).Some?
    ensures Advances(t, TaskMove(x, t, act).value)
  {
  }

  lemma SayKeepsOrder(p: Proto, u: nat, m: Move)
    requires FatesOk(p) && MessagesOk(p) && u in p.tasks && Advances(p.tasks[u], m) && m.say.Some?
    ensures Ordered(p.msgs + [Msg(u, m.say.value)], p.published)
  {
    var t, msgs := p.tasks[u], p.msgs + [Msg(u, m.say.value)];
    forall i | 0 <= i < |p.msgs| && p.msgs[i].uid == u
      ensures !p.msgs[i].kind.Closed? && !m.say.value.Started?
    {
      assert SaidOk(p, p.msgs[i]);
    }
    forall j | 0 <= j < |msgs| && msgs[j].uid in p.published && !msgs[j].kind.Started?
      ensures Msg(msgs[j].uid, Started) in msgs[..j]
    {
      if j < |p.msgs| {
        assert msgs[..j] == p.msgs[..j];
      } else {
        assert msgs[..j] == p.msgs && Said(p, u, Started);
      }
    }
  }

  lemma MoveSaidOk(p: Proto, u: nat, m: Move, msg: Msg)
    requires FatesOk(p) && u in p.tasks && Advances(p.tasks[u], m) && SaidOk(p, msg)
    ensures SaidOk(Moved(p, u, m), msg)
  {
  }

  lemma MoveMessagesOk(p: Proto, u: nat, m: Move)
    requires FatesOk(p) && MessagesOk(p) && u in p.tasks && Advances(p.tasks[u], m)
    ensures MessagesOk(Moved(p, u, m))
  {
    var p' := Moved(p, u, m);
    forall i | 0 <= i < |p'.msgs|
      ensures SaidOk(p', p'.msgs[i])
    {
      if i < |p.msgs| {
        MoveSaidOk(p, u, m, p.msgs[i]);
      }
    }
    assert Ordered(p'.msgs, p'.published) by {
      if m.say.Some? {
        SayKeepsOrder(p, u, m);
      } else {
        assert p'.msgs == p.msgs;
        PublishKeepsOrder(p, u, m);
      }
    }
    forall v | v in p'.tasks && (p'.tasks[v].pc.Running? || p'.tasks[v].pc.Ended? || p'.tasks[v].pc.CloseSend?)
      ensures Said(p', v, Started)
    {
      assert Said(p, v, Started) || (v == u && p'.msgs[|p.msgs|] == Msg(u, Started));
    }
  }

  lemma PublishKeepsOrder(p: Proto, u: nat, m: Move)
    requires MessagesOk(p) && u in p.tasks && Advances(p.tasks[u], m) && m.say.None?
    ensures Ordered(p.msgs, Moved(p, u, m).published)
  {
    if m.pc.Published? {
      forall i | 0 <= i < |p.msgs|
        ensures p.msgs[i].uid != u || u in p.published
      {
        assert SaidOk(p, p.msgs[i]);
      }
    }
  }

  /** Messages stay in order when nothing is said and no task moves. */
  lemma SilenceMessagesOk(p: Proto, p': Proto)
    requires MessagesOk(p) && p'.msgs == p.msgs && p'.published == p.published
    requires forall u :: u in p.tasks ==> u in p'.tasks && p'.tasks[u] == p.tasks[u]
    requires forall u :: u in p'.tasks && u !in p.tasks ==> p'.tasks[u].pc.Reserved?
    ensures MessagesOk(p')
  {
    forall i | 0 <= i < |p'.msgs|
      ensures SaidOk(p', p'.msgs[i])
    {
      assert SaidOk(p, p.msgs[i]);
    }
    forall u | u in p'.tasks && (p'.tasks[u].pc.Running? || p'.tasks[u].pc.Ended? || p'.tasks[u].pc.CloseSend?)
      ensures Said(p', u, Started)
    {
      assert u in p.tasks;
      assert Said(p, u, Started);
    }
  }

  lemma OthersSilent(p: Proto, e: Event)
    requires EntriesOk(p) && !e.Acts?
    ensures var p' := Step(p, e);
      && p'.msgs == p.msgs && p'.published == p.published
      && (forall u :: u in p.tasks ==> u in p'.tasks && p'.tasks[u] == p.tasks[u])
      && (forall u :: u in p'.tasks && u !in p.tasks ==> p'.tasks[u].pc.Reserved?)
  {
    assert p.next !in p.tasks;
  }

  lemma ActMessagesOk(p: Proto, u: nat, act: Act)
    requires EntriesOk(p) && FatesOk(p) && MessagesOk(p)
    ensures MessagesOk(Step(p, Acts(u, act)))
  {
    if u in p.tasks && TaskMove(p.x, p.tasks[u], act).Some? {
      TaskMoveAdvances(p.x, p.tasks[u], act);
      MoveMessagesOk(p, u, TaskMove(p.x, p.tasks[u], act).value);
    }
  }

  lemma StepMessagesOk(p: Proto, e: Event)
    requires EntriesOk(p) && FatesOk(p) && MessagesOk(p)
    ensures MessagesOk(Step(p, e))
  {
    if e.Acts? {
      ActMessagesOk(p, e.u, e.act);
    } else {
      OthersSilent(p, e);
      SilenceMessagesOk(p, Step(p, e));
    }
  }

  // ---------------------------------------------------------------- main result

  ghost predicate Inv(p: Proto) {
    EntriesOk(p) && FatesOk(p) && MessagesOk(p)
  }

  lemma StepKeepsInv(p: Proto, e: Event)
    requires Inv(p)
    ensures Inv(Step(p, e))
  {
    StepEntriesOk(p, e);
    StepFatesOk(p, e);
    StepMessagesOk(p, e);
  }

  lemma {:induction false} RunKeepsInv(p: Proto, es: seq<Event>)
    requires Inv(p)
    ensures Inv(Run(p, es))
    decreases |es|
  {
    if es != [] {
      StepKeepsInv(p, es[0]);
      RunKeepsInv(Step(p, es[0]), es[1..]);
    }
  }

  /** In every run: pending and active IDs are disjoint and at most ten together; a
      reservation withdrawn by a close or whose setup timer won never becomes a session;
      nothing follows a reservation's closed message, so there is at most one; and a
      session's started message comes once and before all its others. */
  lemma EveryRunIsSafe(es: seq<Event>)
    ensures var p := Run(Init, es);
      && p.x.pending.Keys !! p.x.sessions.Keys && |p.x.pending| + |p.x.sessions| <= MAX_SESSIONS
      && p.published !! p.withdrawn && p.published !! p.x.timedOut
      && (forall id :: id in p.x.sessions ==> p.x.sessions[id].uid in p.published)
      && Ordered(p.msgs, p.published)
  {
    RunKeepsInv(Init, es);
    var p := Run(Init, es);
    forall id | id in p.x.sessions
      ensures p.x.sessions[id].uid in p.published
    {
      assert Held(p, id, p.x.sessions[id]);
    }
  }
}
