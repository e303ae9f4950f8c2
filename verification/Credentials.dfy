/** Sockets and credentials in one run: the connect section of the hub side belongs to a
    connect attempt of the identity side, whose final check decides whether it installs. */
module SocketCredentials {
  import opened Text
  import H = SessionOwnership
  import I = RuntimeIdentity

  /** The hub side, the identity side, the attempt that holds the connect section, and for
      every installed socket the attempt it came from. */
  datatype Joint = Joint(hub: H.Hub, ids: I.World, holder: Option<nat>, sockets: map<nat, I.Installed>)

  function Start(cur: I.Snapshot): Joint {
    Joint(H.Init, I.Start(cur), None, map[])
  }

  datatype Event =
    | HubDoes(h: H.Event)
    | IdentityDoes(i: I.Event)
    | LockFor(sock: nat, id: nat)
    | FinalCheck
    | InstallSocket
    | Abandon

  /** Steps of the connect section, which only its own events below take. */
  predicate Reserved(e: H.Event) {
    e.Lock? || e.InstallSocket? || e.GiveUp?
  }

  predicate Concerns(e: I.Event, holder: Option<nat>) {
    !e.Rotate? && holder == Some(e.id)
  }

  predicate MayLock(j: Joint, sock: nat, id: nat) {
    && j.holder.None? && j.hub.section.None? && j.hub.readers == map[] && sock !in j.hub.tokenless
    && I.At(j.ids, id, I.Matched)
  }

  predicate Ready(j: Joint) {
    j.holder.Some? && H.AtStage(j.hub, H.LogsCleared)
  }

  function Leave(j: Joint, ids: I.World): Joint {
    j.(hub := H.Step(j.hub, H.GiveUp), ids := ids, holder := None)
  }

  function Step(j: Joint, e: Event, rules: I.Rules): Joint {
    match e
    case HubDoes(h) => if Reserved(h) then j else j.(hub := H.Step(j.hub, h))
    case IdentityDoes(i) =>
      if i.FinalCheck? || i.Install? || Concerns(i, j.holder) then j else j.(ids := I.Step(j.ids, i, rules))
    case LockFor(sock, id) =>
      if !MayLock(j, sock, id) then j
      else j.(hub := H.Step(j.hub, H.Lock(sock, j.ids.attempts[id].snap.token == "")), holder := Some(id))
    case FinalCheck =>
      if !Ready(j) || !I.At(j.ids, j.holder.value, I.Matched) then j
      else
        var ids := I.Step(j.ids, I.FinalCheck(j.holder.value), rules);
        if j.holder.value in ids.attempts then j.(ids := ids) else Leave(j, ids)
    case InstallSocket =>
      if !Ready(j) || !I.At(j.ids, j.holder.value, I.Checked) || j.holder.value !in j.ids.seen then j
      else
        var id := j.holder.value;
        Joint(H.Step(j.hub, H.InstallSocket), I.Step(j.ids, I.Install(id), rules), None,
              j.sockets[j.hub.section.value.sock := I.Installed(id, j.ids.attempts[id], j.ids.seen[id])])
    case Abandon => if Ready(j) then Leave(j, I.Step(j.ids, I.Abort(j.holder.value), rules)) else j
  }

  function Run(j: Joint, es: seq<Event>, rules: I.Rules): Joint
    decreases |es|
  {
    if es == [] then j else Run(Step(j, es[0], rules), es[1..], rules)
  }

  // ------------------------------------------------------------------ the invariant

  /** The section's socket is tokenless exactly when its attempt's snapshot is. */
  ghost predicate HolderOk(j: Joint) {
    && (j.holder.Some? <==> j.hub.section.Some?)
    && (j.holder.Some? ==>
          && j.holder.value in j.ids.attempts
          && j.hub.section.value.tokenless == (j.ids.attempts[j.holder.value].snap.token == ""))
  }

  ghost predicate SocketOk(j: Joint, sock: nat) {
    && sock in j.sockets && sock in j.hub.tokenless && j.sockets[sock] in j.ids.installed
    && j.hub.tokenless[sock] == (j.sockets[sock].a.snap.token == "")
  }

  ghost predicate SocketsOk(j: Joint) {
    forall sock :: sock in j.hub.tokenless ==> SocketOk(j, sock)
  }

  ghost predicate Inv(j: Joint, rules: I.Rules) {
    H.Inv(j.hub) && I.Inv(j.ids, rules) && HolderOk(j) && SocketsOk(j)
  }

  /** The section is still there, for a socket with or without a token as before. */
  ghost predicate SameSection(h: H.Hub, h': H.Hub) {
    && h'.tokenless == h.tokenless && (h'.section.Some? <==> h.section.Some?)
    && (h.section.Some? ==> h'.section.value.tokenless == h.section.value.tokenless)
  }

  lemma DispatchKeepsSection(h: H.Hub, e: H.Event)
    ensures SameSection(h, H.StepDispatch(h, e))
  {
  }

  lemma TrafficKeepsSection(h: H.Hub, e: H.Event)
    ensures SameSection(h, H.StepTraffic(h, e))
  {
  }

  lemma OwnersKeepSection(h: H.Hub, e: H.Event)
    ensures SameSection(h, H.StepOwners(h, e))
  {
  }

  lemma StageKeepsSection(h: H.Hub, e: H.Event)
    requires e.Mark? || e.CloseExec? || e.CloseLogs?
    ensures SameSection(h, H.StepSection(h, e))
  {
  }

  /** Outside the reserved steps the hub side neither installs nor leaves a section. */
  lemma HubKeepsSection(h: H.Hub, e: H.Event)
    requires !Reserved(e)
    ensures SameSection(h, H.Step(h, e))
  {
    if e.Mark? || e.CloseExec? || e.CloseLogs? {
      StageKeepsSection(h, e);
    } else if e.Disconnect? || e.Send? || e.Receive? || e.Deliver? {
      TrafficKeepsSection(h, e);
    } else if e.ExecActs? || e.ExecCancel? || e.StreamEnds? {
      OwnersKeepSection(h, e);
    } else {
      DispatchKeepsSection(h, e);
    }
  }

  lemma HubKeeps(j: Joint, h: H.Event, rules: I.Rules)
    requires Inv(j, rules) && !Reserved(h)
    ensures Inv(j.(hub := H.Step(j.hub, h)), rules)
  {
    H.StepKeepsInv(j.hub, h);
    HubKeepsSection(j.hub, h);
    SameSockets(j, j.(hub := H.Step(j.hub, h)));
  }

  lemma SameSockets(j: Joint, j': Joint)
    requires SocketsOk(j) && j'.hub.tokenless == j.hub.tokenless && j'.sockets == j.sockets
    requires forall s :: s in j.ids.installed ==> s in j'.ids.installed
    ensures SocketsOk(j')
  {
    forall sock | sock in j'.hub.tokenless
      ensures SocketOk(j', sock)
    {
      assert SocketOk(j, sock);
    }
  }

  lemma IdentityKeepsOthers(w: I.World, e: I.Event, id: nat, rules: I.Rules)
    requires !Concerns(e, Some(id)) && !e.Install?
    ensures var w' := I.Step(w, e, rules);
      && w'.installed == w.installed && (id in w.attempts ==> id in w'.attempts && w'.attempts[id] == w.attempts[id])
  {
  }

  lemma IdentityKeepsInstalled(w: I.World, e: I.Event, rules: I.Rules)
    requires !e.Install?
    ensures I.Step(w, e, rules).installed == w.installed
  {
  }

  lemma IdentityKeeps(j: Joint, i: I.Event, rules: I.Rules)
    requires Inv(j, rules) && !i.Install? && !Concerns(i, j.holder)
    ensures Inv(j.(ids := I.Step(j.ids, i, rules)), rules)
  {
    var j' := j.(ids := I.Step(j.ids, i, rules));
    I.StepKeepsInv(j.ids, i, rules);
    IdentityKeepsInstalled(j.ids, i, rules);
    if j.holder.Some? {
      IdentityKeepsOthers(j.ids, i, j.holder.value, rules);
    }
    SameSockets(j, j');
  }

  lemma LockKeeps(j: Joint, sock: nat, id: nat, rules: I.Rules)
    requires Inv(j, rules) && MayLock(j, sock, id)
    ensures Inv(Step(j, LockFor(sock, id), rules), rules)
  {
    var j' := Step(j, LockFor(sock, id), rules);
    H.StepKeepsInv(j.hub, H.Lock(sock, j.ids.attempts[id].snap.token == ""));
    SameSockets(j, j');
  }

  lemma LeaveKeeps(j: Joint, i: I.Event, rules: I.Rules)
    requires Inv(j, rules) && Ready(j) && !i.Install?
    ensures Inv(Leave(j, I.Step(j.ids, i, rules)), rules)
  {
    H.StepKeepsInv(j.hub, H.GiveUp);
    I.StepKeepsInv(j.ids, i, rules);
    IdentityKeepsInstalled(j.ids, i, rules);
    SameSockets(j, Leave(j, I.Step(j.ids, i, rules)));
  }

  lemma CheckKeeps(j: Joint, rules: I.Rules)
    requires Inv(j, rules) && Ready(j) && I.At(j.ids, j.holder.value, I.Matched)
    ensures Inv(Step(j, FinalCheck, rules), rules)
  {
    var id := j.holder.value;
    var ids := I.Step(j.ids, I.FinalCheck(id), rules);
    LeaveKeeps(j, I.FinalCheck(id), rules);
    I.StepKeepsInv(j.ids, I.FinalCheck(id), rules);
    IdentityKeepsInstalled(j.ids, I.FinalCheck(id), rules);
    SameSockets(j, j.(ids := ids));
    assert id in ids.attempts ==> ids.attempts[id].snap == j.ids.attempts[id].snap;
  }

  lemma InstallKeeps(j: Joint, rules: I.Rules)
    requires Inv(j, rules) && Ready(j) && I.At(j.ids, j.holder.value, I.Checked) && j.holder.value in j.ids.seen
    ensures Inv(Step(j, InstallSocket, rules), rules)
  {
    var id, j' := j.holder.value, Step(j, InstallSocket, rules);
    H.StepKeepsInv(j.hub, H.InstallSocket);
    I.StepKeepsInv(j.ids, I.Install(id), rules);
    var s := I.Installed(id, j.ids.attempts[id], j.ids.seen[id]);
    assert j'.ids.installed == j.ids.installed + [s];
    forall sock | sock in j'.hub.tokenless
      ensures SocketOk(j', sock)
    {
      assert sock != j.hub.section.value.sock ==> SocketOk(j, sock);
    }
  }

  lemma StepKeepsInv(j: Joint, e: Event, rules: I.Rules)
    requires Inv(j, rules)
    ensures Inv(Step(j, e, rules), rules)
  {
    match e
    case HubDoes(h) =>
      if !Reserved(h) {
        HubKeeps(j, h, rules);
      }
    case IdentityDoes(i) =>
      if !i.FinalCheck? && !i.Install? && !Concerns(i, j.holder) {
        IdentityKeeps(j, i, rules);
      }
    case LockFor(sock, id) =>
      if MayLock(j, sock, id) {
        LockKeeps(j, sock, id, rules);
      }
    case FinalCheck =>
      if Ready(j) && I.At(j.ids, j.holder.value, I.Matched) {
        CheckKeeps(j, rules);
      }
    case InstallSocket =>
      if Ready(j) && I.At(j.ids, j.holder.value, I.Checked) && j.holder.value in j.ids.seen {
        InstallKeeps(j, rules);
      }
    case Abandon =>
      if Ready(j) {
        LeaveKeeps(j, I.Abort(j.holder.value), rules);
      }
  }

  lemma {:induction false} RunKeepsInv(j: Joint, es: seq<Event>, rules: I.Rules)
    requires Inv(j, rules)
    ensures Inv(Run(j, es, rules), rules)
    decreases |es|
  {
    if es != [] {
      StepKeepsInv(j, es[0], rules);
      RunKeepsInv(Step(j, es[0], rules), es[1..], rules);
    }
  }

  // -------------------------------------------------------------------- main result

  /** In every joint run: a socket that wrote anything but enrollment.proof was opened with a
      non-empty token, and that token was still the one in force at its final check; the same
      holds of a socket that delivered an ordinary message. */
  lemma OrdinaryTrafficHadACredential(cur: I.Snapshot, es: seq<Event>, rules: I.Rules)
    ensures var j := Run(Start(cur), es, rules);
      && (forall k :: 0 <= k < |j.hub.wire| && !j.hub.wire[k].kind.EnrollmentProof? ==>
            HadCredential(j, j.hub.wire[k].sock))
      && (forall k :: 0 <= k < |j.hub.delivered| && j.hub.delivered[k].kind.Ordinary? ==>
            HadCredential(j, j.hub.delivered[k].sock))
  {
    RunKeepsInv(Start(cur), es, rules);
    var j := Run(Start(cur), es, rules);
    forall k | 0 <= k < |j.hub.wire| && !j.hub.wire[k].kind.EnrollmentProof?
      ensures HadCredential(j, j.hub.wire[k].sock)
    {
      assert H.WriteOk(j.hub, j.hub.wire[k]);
      CredentialOf(j, j.hub.wire[k].sock, rules);
    }
    forall k | 0 <= k < |j.hub.delivered| && j.hub.delivered[k].kind.Ordinary?
      ensures HadCredential(j, j.hub.delivered[k].sock)
    {
      assert H.DeliveryOk(j.hub, j.hub.delivered[k]);
      CredentialOf(j, j.hub.delivered[k].sock, rules);
    }
  }

  ghost predicate HadCredential(j: Joint, sock: nat) {
    && sock in j.sockets
    && var s := j.sockets[sock];
       s.a.snap.token != "" && s.seen.token == s.a.snap.token && s.seen.ws == s.a.snap.ws
  }

  lemma CredentialOf(j: Joint, sock: nat, rules: I.Rules)
    requires Inv(j, rules) && sock in j.hub.tokenless && !j.hub.tokenless[sock]
    ensures HadCredential(j, sock)
  {
    assert SocketOk(j, sock);
    var s := j.sockets[sock];
    var k :| 0 <= k < |j.ids.installed| && j.ids.installed[k] == s;
    assert I.InstallOk(j.ids, j.ids.installed[k], rules);
  }

  // ------------------------------------------------------------- connects do get there

  function Section(j: Joint, sock: nat, id: nat, rules: I.Rules): Joint {
    var a := Step(Step(j, LockFor(sock, id), rules), HubDoes(H.Mark), rules);
    Step(Step(a, HubDoes(H.CloseExec), rules), HubDoes(H.CloseLogs), rules)
  }

  lemma SectionClears(j: Joint, sock: nat, id: nat, rules: I.Rules)
    requires MayLock(j, sock, id)
    ensures var c := Section(j, sock, id, rules);
      && c.ids == j.ids && c.holder == Some(id) && H.AtStage(c.hub, H.LogsCleared) && c.sockets == j.sockets
      && c.hub.section.value.sock == sock && c.hub.section.value.tokenless == (j.ids.attempts[id].snap.token == "")
      && c.hub.tokenless == j.hub.tokenless
  {
    var a := Step(j, LockFor(sock, id), rules);
    assert H.AtStage(a.hub, H.Locked) && a.hub.section.value.sock == sock && a.ids == j.ids && a.holder == Some(id);
    H.TakesDown(a.hub);
    var b := Step(a, HubDoes(H.Mark), rules);
    assert H.AtStage(b.hub, H.Marked) && b.ids == j.ids && b.holder == Some(id);
    var c := Step(b, HubDoes(H.CloseExec), rules);
    assert H.AtStage(c.hub, H.ExecCleared) && c.hub.section.value.sock == sock && c.hub.tokenless == j.hub.tokenless;
  }

  lemma Checks(c: Joint, id: nat, rules: I.Rules)
    requires Ready(c) && c.holder == Some(id) && I.At(c.ids, id, I.Matched)
    requires c.ids.cur.generation == c.ids.attempts[id].conn.generation
    ensures var d := Step(c, FinalCheck, rules);
      && d.hub == c.hub && d.holder == c.holder && d.sockets == c.sockets
      && I.At(d.ids, id, I.Checked) && id in d.ids.seen && d.ids.seen[id] == c.ids.cur
  {
  }

  lemma Installs(d: Joint, id: nat, rules: I.Rules)
    requires Ready(d) && d.holder == Some(id) && I.At(d.ids, id, I.Checked) && id in d.ids.seen
    ensures var v, s := Step(d, InstallSocket, rules), d.hub.section.value;
      && v.hub.t.conn == Some(s.sock) && v.hub.t.connected && v.hub.t.pendingEnrollment == s.tokenless && v.holder.None?
      && s.sock in v.sockets && v.sockets[s.sock].id == id && v.sockets[s.sock].seen == d.ids.seen[id]
  {
  }

  /** An attempt past its first check, still current and with nothing in its way, opens its
      socket: connected, pending enrollment exactly without a token, and tied to the attempt. */
  lemma UndisturbedConnectInstalls(j: Joint, sock: nat, id: nat, rules: I.Rules)
    requires MayLock(j, sock, id) && j.ids.cur.generation == j.ids.attempts[id].conn.generation
    ensures var v := Step(Step(Section(j, sock, id, rules), FinalCheck, rules), InstallSocket, rules);
      && v.hub.t.conn == Some(sock) && v.hub.t.connected
      && v.hub.t.pendingEnrollment == (j.ids.attempts[id].snap.token == "")
      && sock in v.sockets && v.sockets[sock].id == id && v.sockets[sock].seen == j.ids.cur && v.holder.None?
  {
    SectionClears(j, sock, id, rules);
    var c := Section(j, sock, id, rules);
    Checks(c, id, rules);
    Installs(Step(c, FinalCheck, rules), id, rules);
  }
}
