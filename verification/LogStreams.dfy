/** Docker log streams: an owner per session ID, registered before the stream starts. */
module DockerLogStreams {
  import opened DockerExec

  const MAX_STREAMS: nat := 5

  /** `dead` are the sockets whose context has ended. */
  function Open(streams: map<SessionId, Owner>, id: SessionId, o: Owner, dead: set<nat>): map<SessionId, Owner> {
    if |streams| >= MAX_STREAMS || id in streams || o.sock in dead then streams else streams[id := o]
  }

  /** The goroutine's own end: another owner of the same ID stays. */
  function Ended(streams: map<SessionId, Owner>, id: SessionId, o: Owner): map<SessionId, Owner> {
    if id in streams && streams[id] == o then streams - {id} else streams
  }

  predicate Holds(streams: map<SessionId, Owner>, id: SessionId, o: Owner) {
    id in streams && streams[id] == o
  }

  class DockerLogManager {
    var streams: map<SessionId, Owner>

    constructor ()
      ensures streams == map[]
    {
      streams := map[];
    }

    method PrepareLogsStart(id: SessionId, o: Owner, dead: set<nat>) returns (reserved: bool)
      modifies this
      ensures streams == Open(old(streams), id, o, dead)
      ensures reserved <==> id !in old(streams) && id in streams
    {
      if |streams| >= MAX_STREAMS {
        return false;
      }
      if id in streams {
        return false;
      }
      if o.sock in dead {
        return false;
      }
      streams := streams[id := o];
      return true;
    }

    /** The test before each line: refuses for good once the owner was replaced or stopped
        (see StoppedStaysStopped). */
    method Current(id: SessionId, o: Owner) returns (current: bool)
      ensures current <==> Holds(streams, id, o)
    {
      current := id in streams && streams[id] == o;
    }

    method StreamEnded(id: SessionId, o: Owner)
      modifies this
      ensures streams == Ended(old(streams), id, o)
    {
      if id in streams && streams[id] == o {
        streams := streams - {id};
      }
    }

    method HandleLogsStop(id: SessionId) returns (stopped: bool)
      modifies this
      ensures stopped == (id in old(streams)) && streams == old(streams) - {id}
    {
      stopped := id in streams;
      streams := streams - {id};
    }

    method CloseAll()
      modifies this
      ensures streams == map[]
    {
      while streams != map[]
        decreases |streams|
      {
        var id :| id in streams;
        RemoveOne(streams, id);
        streams := streams - {id};
      }
    }
  }

  // --------------------------------------------------------------------------- runs

  datatype Event =
    | Start(id: SessionId, sock: nat, dead: set<nat>)
    | Stop(id: SessionId)
    | StopAll
    | End(id: SessionId, o: Owner)

  /** The registered streams and the number of starts, which names the next owner. */
  datatype Log = Log(streams: map<SessionId, Owner>, next: nat)

  function Step(l: Log, e: Event): Log {
    match e
    case Start(id, sock, dead) => Log(Open(l.streams, id, Owner(l.next, sock), dead), l.next + 1)
    case Stop(id) => l.(streams := l.streams - {id})
    case StopAll => l.(streams := map[])
    case End(id, o) => l.(streams := Ended(l.streams, id, o))
  }

  function Run(l: Log, es: seq<Event>): Log
    decreases |es|
  {
    if es == [] then l else Run(Step(l, es[0]), es[1..])
  }

  /** An owner that was started and is registered nowhere. */
  ghost predicate Stopped(l: Log, o: Owner) {
    o.uid < l.next && forall id :: !Holds(l.streams, id, o)
  }

  ghost predicate Bounded(l: Log) {
    |l.streams| <= MAX_STREAMS
  }

  lemma StepBounded(l: Log, e: Event)
    requires Bounded(l)
    ensures Bounded(Step(l, e))
  {
    if e.Stop? || e.End? {
      RemoveOne(l.streams, e.id);
    }
  }

  lemma StepStaysStopped(l: Log, e: Event, o: Owner)
    requires Stopped(l, o)
    ensures Stopped(Step(l, e), o)
  {
    forall id
      ensures !Holds(Step(l, e).streams, id, o)
    {
      assert !Holds(l.streams, id, o);
    }
  }

  /** A stream's own end takes out its registration and leaves every other owner's. */
  lemma EndRemovesItsOwn(l: Log, id: SessionId, o: Owner, other: SessionId, p: Owner)
    ensures !Holds(Step(l, End(id, o)).streams, id, o)
    ensures p != o ==> (Holds(Step(l, End(id, o)).streams, other, p) <==> Holds(l.streams, other, p))
  {
  }

  /** A start with its ID and one of five places free, on a live socket, is registered. */
  lemma StartRegisters(l: Log, id: SessionId, sock: nat, dead: set<nat>)
    ensures Step(l, Start(id, sock, dead)).streams ==
      if id !in l.streams && |l.streams| < 5 && sock !in dead then l.streams[id := Owner(l.next, sock)] else l.streams
  {
  }

  /** In every run at most five streams are registered, and once an owner was stopped, closed
      or ended it is never current again, under any ID: the goroutine of a replaced stream
      fails its test before every later line, and its own end removes no replacement. */
  lemma {:induction false} StoppedStaysStopped(l: Log, es: seq<Event>, o: Owner)
    requires Bounded(l)
    ensures Bounded(Run(l, es))
    ensures Stopped(l, o) ==> Stopped(Run(l, es), o)
    decreases |es|
  {
    if es != [] {
      StepBounded(l, es[0]);
      if Stopped(l, o) {
        StepStaysStopped(l, es[0], o);
      }
      StoppedStaysStopped(Step(l, es[0]), es[1..], o);
    }
  }
}
