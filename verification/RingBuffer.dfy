/** The telemetry ring buffer: a circular array that overwrites its oldest entry
    when full, and whose Flush sends the head without holding the lock.

    `Queue` is the abstract value of the buffer. The class `RingBuffer` keeps it in
    a circular array; `Machine` interleaves its lock sections arbitrarily. */
module RingBuffers {

  // ---------------------------------------------------------------- queue values

  datatype Queue<T> = Queue(items: seq<T>, version: nat)

  function Pushed<T>(q: Queue<T>, cap: nat, x: T): Queue<T>
    requires 0 < cap
  {
    if |q.items| < cap then q.(items := q.items + [x])
    else Queue(q.items[1..] + [x], q.version + 1)
  }

  function Drained<T>(q: Queue<T>): Queue<T> {
    if q.items == [] then q else Queue([], q.version + 1)
  }

  /** The second lock section of Flush: drop the head only if nobody moved it. */
  function Committed<T>(q: Queue<T>, version: nat): Queue<T> {
    if q.items != [] && q.version == version then Queue(q.items[1..], q.version + 1) else q
  }

  // ------------------------------------------------- flush with its interference

  /** What another goroutine does between two lock sections of Flush. */
  datatype Op<T> = DoPush(x: T) | DoDrain

  /** nil, an error wrapping errDiscardBufferedItem, or any other error. */
  datatype Outcome = Delivered | Discarded | Failed

  /** One iteration of the flush loop as the scheduler arranges it: operations before
      the head is read, operations while it is being sent, and the result of the send. */
  datatype Attempt<T> = Attempt(before: seq<Op<T>>, during: seq<Op<T>>, outcome: Outcome)

  datatype Turn<T> = Emptied | Broke | Went(sent: seq<T>)

  datatype Flushed<T> = Flushed(queue: Queue<T>, sent: seq<T>, failed: bool)

  function ApplyOp<T>(q: Queue<T>, cap: nat, op: Op<T>): Queue<T>
    requires 0 < cap
  {
    match op
    case DoPush(x) => Pushed(q, cap, x)
    case DoDrain => Drained(q)
  }

  function ApplyOps<T>(q: Queue<T>, cap: nat, ops: seq<Op<T>>): Queue<T>
    requires 0 < cap
    decreases |ops|
  {
    if ops == [] then q else ApplyOps(ApplyOp(q, cap, ops[0]), cap, ops[1..])
  }

  function FlushFrom<T>(q: Queue<T>, cap: nat, env: seq<Attempt<T>>, i: nat): Flushed<T>
    requires 0 < cap && i <= |env|
    decreases |env| - i
  {
    if i == |env| then Flushed(q, [], false)
    else
      var q1 := ApplyOps(q, cap, env[i].before);
      if q1.items == [] then Flushed(q1, [], false)
      else
        var q2 := ApplyOps(q1, cap, env[i].during);
        if env[i].outcome.Failed? then Flushed(q2, [], true)
        else
          var rest := FlushFrom(Committed(q2, q1.version), cap, env, i + 1);
          rest.(sent := (if env[i].outcome.Delivered? then [q1.items[0]] else []) + rest.sent)
  }

  function After<T>(sent: seq<T>, f: Flushed<T>): Flushed<T> {
    f.(sent := sent + f.sent)
  }

  lemma FlushContinues<T>(q: Queue<T>, cap: nat, env: seq<Attempt<T>>, i: nat, sent: seq<T>)
    requires 0 < cap && i < |env| && !env[i].outcome.Failed?
    requires ApplyOps(q, cap, env[i].before).items != []
    ensures var q1 := ApplyOps(q, cap, env[i].before);
      var q2 := ApplyOps(q1, cap, env[i].during);
      var now := if env[i].outcome.Delivered? then [q1.items[0]] else [];
      After(sent, FlushFrom(q, cap, env, i)) ==
      After(sent + now, FlushFrom(Committed(q2, q1.version), cap, env, i + 1))
  {
    var q1 := ApplyOps(q, cap, env[i].before);
    var q2 := ApplyOps(q1, cap, env[i].during);
    var now := if env[i].outcome.Delivered? then [q1.items[0]] else [];
    var rest := FlushFrom(Committed(q2, q1.version), cap, env, i + 1);
    assert sent + (now + rest.sent) == (sent + now) + rest.sent;
  }

  /** Nobody else at work from iteration i on. */
  ghost predicate Undisturbed<T>(env: seq<Attempt<T>>, i: nat) {
    forall k :: i <= k < |env| ==> env[k].before == [] && env[k].during == []
  }

  lemma TurnAlone<T>(q: Queue<T>, cap: nat, env: seq<Attempt<T>>, i: nat)
    requires 0 < cap && i < |env| && Undisturbed(env, i) && q.items != [] && env[i].outcome.Delivered?
    ensures var rest := FlushFrom(Queue(q.items[1..], q.version + 1), cap, env, i + 1);
      FlushFrom(q, cap, env, i) == rest.(sent := [q.items[0]] + rest.sent)
  {
  }

  /** Left alone, with every send succeeding, a flush sends the whole buffer in order and
      leaves it empty. */
  lemma {:induction false} FlushSendsAll<T>(q: Queue<T>, cap: nat, env: seq<Attempt<T>>, i: nat)
    requires 0 < cap && i <= |env| && |q.items| <= |env| - i && Undisturbed(env, i)
    requires forall k :: i <= k < |env| ==> env[k].outcome.Delivered?
    ensures FlushFrom(q, cap, env, i) == Flushed(Queue([], q.version + |q.items|), q.items, false)
    decreases |env| - i
  {
    if q.items != [] {
      TurnAlone(q, cap, env, i);
      FlushSendsAll(Queue(q.items[1..], q.version + 1), cap, env, i + 1);
      assert [q.items[0]] + q.items[1..] == q.items;
    }
  }

  /** Left alone, with the n-th send failing, it has sent the entries before that one and keeps
      it and all after it. */
  lemma {:induction false} FlushStopsAtFailure<T>(q: Queue<T>, cap: nat, env: seq<Attempt<T>>, i: nat, n: nat)
    requires 0 < cap && i + n < |env| && n < |q.items| && Undisturbed(env, i) && env[i + n].outcome.Failed?
    requires forall k :: i <= k < i + n ==> env[k].outcome.Delivered?
    ensures FlushFrom(q, cap, env, i) == Flushed(Queue(q.items[n..], q.version + n), q.items[..n], true)
    decreases n
  {
    if n == 0 {
      assert q.items[0..] == q.items;
    } else {
      TurnAlone(q, cap, env, i);
      FlushStopsAtFailure(Queue(q.items[1..], q.version + 1), cap, env, i + 1, n - 1);
      assert [q.items[0]] + q.items[1..][..n - 1] == q.items[..n] && q.items[1..][n - 1..] == q.items[n..];
    }
  }

  // ----------------------------------------------------------- the circular array

  /** (head + i) % cap without a modulus, for indices at most one lap ahead. */
  function Slot(head: nat, i: nat, cap: nat): (k: nat)
    requires head < cap && i <= cap
    ensures k < cap
  {
    if head + i < cap then head + i else head + i - cap
  }

  lemma SlotIsModulus(head: nat, i: nat, cap: nat)
    requires head < cap && i <= cap
    ensures (head + i) % cap == Slot(head, i, cap)
  {
    if head + i >= cap {
      assert head + i == (head + i - cap) + cap * 1;
      ModuloLap(head + i - cap, cap);
    }
  }

  lemma ModuloLap(r: nat, cap: nat)
    requires r < cap
    ensures (r + cap) % cap == r
  {
    assert (r + cap) / cap == 1;
  }

  class RingBuffer<T> {
    var data: array<T>
    var head: nat
    var size: nat
    var headVersion: nat
    const cap: nat
    const zero: T

    ghost predicate Valid()
      reads this, data
    {
      && 0 < cap == data.Length && head < cap && size <= cap
      // Slots outside the window hold no reference to an old entry.
      && forall i :: size <= i < cap ==> data[Slot(head, i, cap)] == zero
    }

    ghost function Contents(): (s: seq<T>)
      requires Valid()
      reads this, data
      ensures |s| == size
    {
      seq(size, i requires 0 <= i < size && Valid() reads this, data => data[Slot(head, i, cap)])
    }

    ghost function Abs(): Queue<T>
      requires Valid()
      reads this, data
    {
      Queue(Contents(), headVersion)
    }

    constructor (capacity: int, zero: T)
      ensures Valid() && fresh(data) && Abs() == Queue([], 0)
      ensures cap == (if capacity <= 0 then 60 else capacity) && this.zero == zero
    {
      var n: nat := if capacity <= 0 then 60 else capacity;
      cap := n;
      this.zero := zero;
      data := new T[n](_ => zero);
      head, size, headVersion := 0, 0, 0;
    }

    method Push(item: T)
      requires Valid()
      modifies this, data
      ensures Valid() && data == old(data)
      ensures Abs() == Pushed(old(Abs()), cap, item)
    {
      var idx := (head + size) % cap;
      SlotIsModulus(head, size, cap);
      SlotIsModulus(head, 1, cap);
      data[idx] := item;
      if size < cap {
        size := size + 1;
      } else {
        head := (head + 1) % cap;
        headVersion := headVersion + 1;
      }
      assert Contents() == Pushed(old(Abs()), cap, item).items;
    }

    method Drain() returns (out: seq<T>)
      requires Valid()
      modifies this, data
      ensures Valid() && data == old(data)
      ensures out == old(Contents()) && Abs() == Drained(old(Abs()))
    {
      if size == 0 {
        return [];
      }
      out := [];
      var i := 0;
      while i < size
        invariant 0 <= i <= size
        invariant data == old(data) && head == old(head) && size == old(size) && headVersion == old(headVersion)
        invariant out == old(Contents())[..i]
        invariant forall k :: i <= k < size ==> data[Slot(head, k, cap)] == old(data[Slot(head, k, cap)])
        invariant forall k :: 0 <= k < cap && (k < i || size <= k) ==> data[Slot(head, k, cap)] == zero
      {
        SlotIsModulus(head, i, cap);
        var idx := (head + i) % cap;
        out := out + [data[idx]];
        data[idx] := zero;
        i := i + 1;
      }
      forall k | 0 <= k < cap
        ensures data[k] == zero
      {
        var j := if head <= k then k - head else k + cap - head;
        assert Slot(head, j, cap) == k;
      }
      head, size, headVersion := 0, 0, headVersion + 1;
    }

    method Apply(ops: seq<Op<T>>)
      requires Valid()
      modifies this, data
      ensures Valid() && data == old(data)
      ensures Abs() == ApplyOps(old(Abs()), cap, ops)
    {
      var i := 0;
      while i < |ops|
        invariant 0 <= i <= |ops| && Valid() && data == old(data)
        invariant ApplyOps(Abs(), cap, ops[i..]) == ApplyOps(old(Abs()), cap, ops)
      {
        assert ops[i..][1..] == ops[i + 1..];
        match ops[i] {
          case DoPush(x) => Push(x);
          case DoDrain => var _ := Drain();
        }
        i := i + 1;
      }
    }

    /** The lock section after a send. */
    method RemoveSent(version: nat)
      requires Valid()
      modifies this, data
      ensures Valid() && data == old(data)
      ensures Abs() == Committed(old(Abs()), version)
    {
      if size > 0 && headVersion == version {
        SlotIsModulus(head, 1, cap);
        data[head] := zero;
        head := (head + 1) % cap;
        size := size - 1;
        headVersion := headVersion + 1;
        assert forall i :: 0 <= i < size ==> Slot(head, i, cap) == Slot(old(head), i + 1, cap);
        forall i | size <= i < cap
          ensures data[Slot(head, i, cap)] == zero
        {
          assert i < cap - 1 ==> Slot(head, i, cap) == Slot(old(head), i + 1, cap);
        }
        assert Contents() == old(Contents())[1..];
      }
    }

    /** Flush under the interference that `env` schedules between its lock sections. */
    method Flush(env: seq<Attempt<T>>) returns (sent: seq<T>, failed: bool)
      requires Valid() && |env| == cap
      modifies this, data
      ensures Valid() && data == old(data)
      ensures Flushed(Abs(), sent, failed) == FlushFrom(old(Abs()), cap, env, 0)
    {
      sent, failed := [], false;
      var i := 0;
      while i < cap
        invariant 0 <= i <= cap && Valid() && data == old(data) && !failed
        invariant After(sent, FlushFrom(Abs(), cap, env, i)) == FlushFrom(old(Abs()), cap, env, 0)
      {
        ghost var q := Abs();
        var turn := FlushOne(env[i]);
        if turn.Emptied? {
          return;
        }
        if turn.Broke? {
          failed := true;
          return;
        }
        FlushContinues(q, cap, env, i, sent);
        sent := sent + turn.sent;
        i := i + 1;
      }
    }

    /** One iteration of the flush loop. */
    method FlushOne(a: Attempt<T>) returns (turn: Turn<T>)
      requires Valid()
      modifies this, data
      ensures Valid() && data == old(data)
      ensures var q1 := ApplyOps(old(Abs()), cap, a.before);
        if q1.items == [] then turn.Emptied? && Abs() == q1
        else
          var q2 := ApplyOps(q1, cap, a.during);
          if a.outcome.Failed? then turn.Broke? && Abs() == q2
          else Abs() == Committed(q2, q1.version) && turn == Went(if a.outcome.Delivered? then [q1.items[0]] else [])
    {
      Apply(a.before);
      if size == 0 {
        return Emptied;
      }
      var sample, version := data[head], headVersion;
      assert sample == Contents()[0];
      Apply(a.during);
      if a.outcome.Failed? {
        return Broke;
      }
      RemoveSent(version);
      return Went(if a.outcome.Delivered? then [sample] else []);
    }
  }

  // -------------------------------------------------- every interleaving, every run

  /** An entry together with the number of entries pushed before it. */
  datatype Tagged<T> = Tagged(index: nat, value: T)

  /** Where the flush that holds flushMu is. `i` counts its loop iterations. */
  datatype Flight<T> =
    | Idle
    | Looking(i: nat)
    | Sending(i: nat, item: Tagged<T>, version: nat)
    | Done(i: nat, item: Tagged<T>, version: nat)

  datatype Event<T> = Push(x: T) | Drain | StartFlush | Peek | Send(outcome: Outcome) | Commit

  /** The shared buffer, the flush in flight, and a history of where entries went. */
  datatype Machine<T> = Machine(
    cap: nat,
    queue: Queue<Tagged<T>>,
    flight: Flight<T>,
    pushes: seq<T>,
    sent: seq<Tagged<T>>,
    discarded: seq<Tagged<T>>,
    removed: seq<Tagged<T>>,
    overwritten: seq<Tagged<T>>,
    drained: seq<Tagged<T>>)

  function Init<T>(cap: nat): Machine<T> {
    Machine(cap, Queue([], 0), Idle, [], [], [], [], [], [])
  }

  /** An event that the current state does not allow leaves the state as it is;
      StartFlush while another flush runs is the failing TryLock. */
  function Step<T>(m: Machine<T>, e: Event<T>): (m': Machine<T>)
    requires 0 < m.cap
    ensures m'.cap == m.cap
  {
    var q := m.queue;
    match e
    case Push(x) =>
      m.(queue := Pushed(q, m.cap, Tagged(|m.pushes|, x)), pushes := m.pushes + [x],
         overwritten := m.overwritten + if |q.items| < m.cap then [] else q.items[..1])
    case Drain => m.(queue := Drained(q), drained := m.drained + q.items)
    case StartFlush => if m.flight.Idle? then m.(flight := Looking(0)) else m
    case Peek =>
      if !m.flight.Looking? then m
      else if m.flight.i >= m.cap || q.items == [] then m.(flight := Idle)
      else m.(flight := Sending(m.flight.i, q.items[0], q.version))
    case Send(outcome) =>
      if !m.flight.Sending? then m
      else if outcome.Failed? then m.(flight := Idle)
      else
        var done := m.(flight := Done(m.flight.i, m.flight.item, m.flight.version));
        if outcome.Delivered? then done.(sent := m.sent + [m.flight.item])
        else done.(discarded := m.discarded + [m.flight.item])
    case Commit =>
      if !m.flight.Done? then m
      else
        var q' := Committed(q, m.flight.version);
        m.(queue := q', flight := Looking(m.flight.i + 1),
           removed := m.removed + if q'.version == q.version then [] else q.items[..1])
  }

  function Run<T>(m: Machine<T>, events: seq<Event<T>>): (m': Machine<T>)
    requires 0 < m.cap
    ensures m'.cap == m.cap
    decreases |events|
  {
    if events == [] then m else
      var m' := Step(m, events[0]);
      Run(m', events[1..])
  }

  function TagAll<T>(pushes: seq<T>): seq<Tagged<T>> {
    seq(|pushes|, k requires 0 <= k < |pushes| => Tagged(k, pushes[k]))
  }

  /** Every entry before this push index has left the buffer. */
  function Oldest<T>(m: Machine<T>): int {
    |m.pushes| - |m.queue.items|
  }

  /** The buffer holds exactly the newest pushes, in order. */
  ghost predicate HoldsNewest<T>(m: Machine<T>) {
    && |m.queue.items| <= m.cap && |m.queue.items| <= |m.pushes|
    && m.queue.items == TagAll(m.pushes)[Oldest(m)..]
  }

  ghost predicate InFlight<T>(f: Flight<T>) {
    f.Sending? || f.Done?
  }

  /** No ABA: an unchanged version means that the head is the entry in flight. */
  ghost predicate VersionGuards<T>(m: Machine<T>) {
    InFlight(m.flight) ==>
      && m.flight.version <= m.queue.version
      && m.flight.item.index <= Oldest(m)
      && (m.flight.version < m.queue.version ==> m.flight.item.index < Oldest(m))
      && (m.flight.version == m.queue.version ==> m.queue.items != [] && m.queue.items[0] == m.flight.item)
  }

  ghost predicate StrictlyIncreasing<T>(s: seq<Tagged<T>>) {
    forall a, b :: 0 <= a < b < |s| ==> s[a].index < s[b].index
  }

  /** Sent entries are behind the buffer, except the one whose Commit is still due. */
  ghost predicate SentInOrder<T>(m: Machine<T>) {
    && StrictlyIncreasing(m.sent)
    && forall k :: 0 <= k < |m.sent| ==>
         || (m.sent[k].index < Oldest(m) && (m.flight.Sending? ==> m.sent[k].index < m.flight.item.index))
         || (m.flight.Done? && m.sent[k] == m.flight.item)
  }

  /** Each element of `all` is in exactly one of the other four, and nothing else is. */
  ghost predicate Partition<X>(all: seq<X>, kept: seq<X>, a: seq<X>, b: seq<X>, c: seq<X>) {
    multiset(all) == multiset(kept) + multiset(a) + multiset(b) + multiset(c)
  }

  ghost predicate Conserved<T>(m: Machine<T>) {
    Partition(TagAll(m.pushes), m.queue.items, m.removed, m.overwritten, m.drained)
  }

  /** Flush removes only what it sent or discarded. */
  ghost predicate RemovedWasHandled<T>(m: Machine<T>) {
    && (forall x :: x in m.removed ==> x in m.sent || x in m.discarded)
    && (m.flight.Done? ==> m.flight.item in m.sent || m.flight.item in m.discarded)
  }

  ghost predicate Inv<T>(m: Machine<T>) {
    && 0 < m.cap
    && HoldsNewest(m) && VersionGuards(m) && SentInOrder(m) && Conserved(m) && RemovedWasHandled(m)
  }

  lemma TagAllAppend<T>(pushes: seq<T>, x: T)
    ensures TagAll(pushes + [x]) == TagAll(pushes) + [Tagged(|pushes|, x)]
  {
  }

  lemma StepHoldsNewest<T>(m: Machine<T>, e: Event<T>)
    requires 0 < m.cap && HoldsNewest(m)
    ensures HoldsNewest(Step(m, e))
    ensures Oldest(m) <= Oldest(Step(m, e))
    ensures m.queue.version <= Step(m, e).queue.version
    ensures Oldest(m) < Oldest(Step(m, e)) <==> m.queue.version < Step(m, e).queue.version
  {
    if e.Push? {
      TagAllAppend(m.pushes, e.x);
    }
  }

  lemma StepVersionGuards<T>(m: Machine<T>, e: Event<T>)
    requires 0 < m.cap && HoldsNewest(m) && VersionGuards(m)
    ensures VersionGuards(Step(m, e))
  {
    StepHoldsNewest(m, e);
  }

  lemma StepSentInOrder<T>(m: Machine<T>, e: Event<T>)
    requires 0 < m.cap && HoldsNewest(m) && VersionGuards(m) && SentInOrder(m)
    ensures SentInOrder(Step(m, e))
  {
    StepHoldsNewest(m, e);
    StepVersionGuards(m, e);
  }

  lemma PartitionAdd<X>(all: seq<X>, kept: seq<X>, a: seq<X>, b: seq<X>, c: seq<X>, x: X)
    requires Partition(all, kept, a, b, c)
    ensures Partition(all + [x], kept + [x], a, b, c)
  {
  }

  lemma PartitionMove<X>(all: seq<X>, kept: seq<X>, a: seq<X>, b: seq<X>, c: seq<X>, n: nat)
    requires Partition(all, kept, a, b, c) && n <= |kept|
    ensures Partition(all, kept[n..], a + kept[..n], b, c)
    ensures Partition(all, kept[n..], a, b + kept[..n], c)
    ensures Partition(all, kept[n..], a, b, c + kept[..n])
  {
    assert multiset(kept) == multiset(kept[..n]) + multiset(kept[n..]) by {
      assert kept == kept[..n] + kept[n..];
    }
  }

  lemma PushConserves<T>(m: Machine<T>, x: T)
    requires 0 < m.cap && HoldsNewest(m) && Conserved(m)
    ensures Conserved(Step(m, Push(x)))
  {
    var q, all := m.queue.items, TagAll(m.pushes);
    var n := if |q| < m.cap then 0 else 1;
    var m' := Step(m, Push(x));
    assert all + [Tagged(|m.pushes|, x)] == TagAll(m'.pushes) && m'.overwritten == m.overwritten + q[..n]
        && m'.queue.items == q[n..] + [Tagged(|m.pushes|, x)] by {
      TagAllAppend(m.pushes, x);
    }
    PartitionMove(all, q, m.removed, m.overwritten, m.drained, n);
    PartitionAdd(all, q[n..], m.removed, m.overwritten + q[..n], m.drained, Tagged(|m.pushes|, x));
  }

  lemma DrainConserves<T>(m: Machine<T>)
    requires 0 < m.cap && Conserved(m)
    ensures Conserved(Step(m, Drain))
  {
    var q, m' := m.queue.items, Step(m, Drain);
    PartitionMove(TagAll(m.pushes), q, m.removed, m.overwritten, m.drained, |q|);
    assert m'.queue.items == q[|q|..] && m'.drained == m.drained + q[..|q|];
  }

  lemma CommitConserves<T>(m: Machine<T>)
    requires 0 < m.cap && Conserved(m)
    ensures Conserved(Step(m, Commit))
  {
    var m' := Step(m, Commit);
    if m'.queue.version != m.queue.version {
      PartitionMove(TagAll(m.pushes), m.queue.items, m.removed, m.overwritten, m.drained, 1);
    } else {
      assert m'.removed == m.removed;
    }
  }

  lemma StepConserved<T>(m: Machine<T>, e: Event<T>)
    requires 0 < m.cap && HoldsNewest(m) && Conserved(m)
    ensures Conserved(Step(m, e))
  {
    match e
    case Push(x) => PushConserves(m, x);
    case Drain => DrainConserves(m);
    case Commit => CommitConserves(m);
    case _ => assert TagAll(Step(m, e).pushes) == TagAll(m.pushes);
  }

  lemma StepRemovedWasHandled<T>(m: Machine<T>, e: Event<T>)
    requires 0 < m.cap && VersionGuards(m) && RemovedWasHandled(m)
    ensures RemovedWasHandled(Step(m, e))
  {
  }

  lemma {:induction false} RunKeepsInv<T>(m: Machine<T>, events: seq<Event<T>>)
    requires Inv(m)
    ensures Inv(Run(m, events))
    decreases |events|
  {
    if events != [] {
      var e := events[0];
      StepHoldsNewest(m, e);
      StepVersionGuards(m, e);
      StepSentInOrder(m, e);
      StepConserved(m, e);
      StepRemovedWasHandled(m, e);
      RunKeepsInv(Step(m, e), events[1..]);
    }
  }

  /** Over every interleaving of pushes, drains and flushes of a buffer of any capacity:
      the buffer holds the newest pushes; entries are delivered in push order, at most
      once each; every entry is retained, removed by Flush, overwritten or drained, and
      only in one of these ways; and Flush removes only entries it sent or discarded. */
  lemma {:induction false} EveryRunIsSafe<T>(cap: nat, events: seq<Event<T>>)
    requires 0 < cap
    ensures var m := Run(Init<T>(cap), events);
      && HoldsNewest(m) && VersionGuards(m)
      && StrictlyIncreasing(m.sent) && (forall x :: x in m.sent ==> x in TagAll(m.pushes))
      && Conserved(m)
      && |m.pushes| == |m.queue.items| + |m.removed| + |m.overwritten| + |m.drained|
      && forall x :: x in m.removed ==> x in m.sent || x in m.discarded
  {
    assert Conserved(Init<T>(cap)) by { assert TagAll<T>([]) == []; }
    RunKeepsInv(Init<T>(cap), events);
    var m := Run(Init<T>(cap), events);
    assert |multiset(TagAll(m.pushes))| == |m.pushes|;
    RunSendsOnlyPushes(Init<T>(cap), events);
  }

  ghost predicate SentWerePushed<T>(m: Machine<T>) {
    && (forall x :: x in m.sent ==> x in TagAll(m.pushes))
    && (InFlight(m.flight) ==> m.flight.item in TagAll(m.pushes))
  }

  lemma {:induction false} RunSendsOnlyPushes<T>(m: Machine<T>, events: seq<Event<T>>)
    requires 0 < m.cap && HoldsNewest(m) && SentWerePushed(m)
    ensures SentWerePushed(Run(m, events))
    decreases |events|
  {
    if events != [] {
      var m' := Step(m, events[0]);
      if events[0].Push? {
        TagAllAppend(m.pushes, events[0].x);
      }
      StepHoldsNewest(m, events[0]);
      RunSendsOnlyPushes(m', events[1..]);
    }
  }

  // --------------------------- the class's lock sections are the machine's steps

  function Erase<T>(q: Queue<Tagged<T>>): Queue<T> {
    Queue(seq(|q.items|, k requires 0 <= k < |q.items| => q.items[k].value), q.version)
  }

  /** What each event does to the buffer value that the class keeps. */
  lemma StepErases<T>(m: Machine<T>, e: Event<T>)
    requires 0 < m.cap && |m.queue.items| <= m.cap
    ensures var q, q' := Erase(m.queue), Erase(Step(m, e).queue);
      match e
      case Push(x) => q' == Pushed(q, m.cap, x)
      case Drain => q' == Drained(q)
      case Commit => q' == if m.flight.Done? then Committed(q, m.flight.version) else q
      case _ => q' == q
  {
  }

  function OpEvents<T>(ops: seq<Op<T>>): seq<Event<T>> {
    seq(|ops|, k requires 0 <= k < |ops| => if ops[k].DoPush? then Push(ops[k].x) else Drain)
  }

  /** The events of one flush from iteration `i` on, under the interference `env`. */
  function FlushEvents<T>(q: Queue<T>, cap: nat, env: seq<Attempt<T>>, i: nat): seq<Event<T>>
    requires 0 < cap && i <= |env|
    decreases |env| - i
  {
    if i == |env| then [Peek]
    else
      var q1 := ApplyOps(q, cap, env[i].before);
      if q1.items == [] then OpEvents(env[i].before) + [Peek]
      else
        var q2 := ApplyOps(q1, cap, env[i].during);
        OpEvents(env[i].before) + [Peek] + OpEvents(env[i].during) + [Send(env[i].outcome)] +
        if env[i].outcome.Failed? then []
        else [Commit] + FlushEvents(Committed(q2, q1.version), cap, env, i + 1)
  }

  lemma {:induction false} RunAppend<T>(m: Machine<T>, a: seq<Event<T>>, b: seq<Event<T>>)
    requires 0 < m.cap
    ensures Run(m, a + b) == Run(Run(m, a), b)
    decreases |a|
  {
    if a == [] {
      assert a + b == b;
    } else {
      assert (a + b)[1..] == a[1..] + b;
      RunAppend(Step(m, a[0]), a[1..], b);
    }
  }

  lemma {:induction false} RunOps<T>(m: Machine<T>, ops: seq<Op<T>>)
    requires 0 < m.cap && |m.queue.items| <= m.cap
    ensures var m' := Run(m, OpEvents(ops));
      && Erase(m'.queue) == ApplyOps(Erase(m.queue), m.cap, ops)
      && m'.flight == m.flight && m'.sent == m.sent && m'.cap == m.cap && |m'.queue.items| <= m.cap
    decreases |ops|
  {
    if ops != [] {
      var e := OpEvents(ops)[0];
      StepErases(m, e);
      assert OpEvents(ops)[1..] == OpEvents(ops[1..]);
      RunOps(Step(m, e), ops[1..]);
    }
  }

  function Values<T>(s: seq<Tagged<T>>): seq<T> {
    seq(|s|, k requires 0 <= k < |s| => s[k].value)
  }

  /** One iteration of the flush loop, as machine events. */
  function AttemptEvents<T>(a: Attempt<T>): seq<Event<T>> {
    OpEvents(a.before) + [Peek] + OpEvents(a.during) + [Send(a.outcome)]
  }

  lemma RunSnoc<T>(m: Machine<T>, a: seq<Event<T>>, e: Event<T>)
    requires 0 < m.cap
    ensures Run(m, a + [e]) == Step(Run(m, a), e)
  {
    RunAppend(m, a, [e]);
  }

  /** Interference, then the section that reads the head. */
  lemma RunPeek<T>(m: Machine<T>, ops: seq<Op<T>>)
    requires 0 < m.cap && |m.queue.items| <= m.cap && m.flight.Looking? && m.flight.i < m.cap
    ensures var m' := Run(m, OpEvents(ops) + [Peek]);
      var q1 := ApplyOps(Erase(m.queue), m.cap, ops);
      && Erase(m'.queue) == q1 && |m'.queue.items| <= m.cap && m'.sent == m.sent
      && if q1.items == [] then m'.flight == Idle
         else m'.flight.Sending? && m'.flight.i == m.flight.i && m'.flight.version == q1.version
              && m'.flight.item.value == q1.items[0]
  {
    RunOps(m, ops);
    var m1 := Run(m, OpEvents(ops));
    RunSnoc(m, OpEvents(ops), Peek);
    if m1.queue.items != [] {
      assert Erase(m1.queue).items[0] == m1.queue.items[0].value;
    }
  }

  /** Interference while the head is being sent, then the result of the send. */
  lemma RunSend<T>(m: Machine<T>, ops: seq<Op<T>>, outcome: Outcome)
    requires 0 < m.cap && |m.queue.items| <= m.cap && m.flight.Sending?
    ensures var m' := Run(m, OpEvents(ops) + [Send(outcome)]);
      && Erase(m'.queue) == ApplyOps(Erase(m.queue), m.cap, ops) && |m'.queue.items| <= m.cap
      && Values(m'.sent) == Values(m.sent) + (if outcome.Delivered? then [m.flight.item.value] else [])
      && if outcome.Failed? then m'.flight == Idle
         else m'.flight == Done(m.flight.i, m.flight.item, m.flight.version)
  {
    RunOps(m, ops);
    RunSnoc(m, OpEvents(ops), Send(outcome));
  }

  lemma RunAttempt<T>(m: Machine<T>, a: Attempt<T>)
    requires 0 < m.cap && |m.queue.items| <= m.cap && m.flight.Looking? && m.flight.i < m.cap
    requires ApplyOps(Erase(m.queue), m.cap, a.before).items != []
    ensures var m' := Run(m, AttemptEvents(a));
      var q1 := ApplyOps(Erase(m.queue), m.cap, a.before);
      && Erase(m'.queue) == ApplyOps(q1, m.cap, a.during) && |m'.queue.items| <= m.cap
      && Values(m'.sent) == Values(m.sent) + (if a.outcome.Delivered? then [q1.items[0]] else [])
      && if a.outcome.Failed? then m'.flight == Idle
         else m'.flight.Done? && m'.flight.i == m.flight.i && m'.flight.version == q1.version
  {
    var peek, send := OpEvents(a.before) + [Peek], OpEvents(a.during) + [Send(a.outcome)];
    RunPeek(m, a.before);
    RunSend(Run(m, peek), a.during, a.outcome);
    RunAppend(m, peek, send);
    assert AttemptEvents(a) == peek + send;
  }

  lemma RunCommit<T>(m: Machine<T>, tail: seq<Event<T>>)
    requires 0 < m.cap && |m.queue.items| <= m.cap && m.flight.Done?
    ensures var m' := Step(m, Commit);
      && Run(m, [Commit] + tail) == Run(m', tail)
      && Erase(m'.queue) == Committed(Erase(m.queue), m.flight.version) && |m'.queue.items| <= m.cap
      && m'.sent == m.sent && m'.flight == Looking(m.flight.i + 1)
  {
    StepErases(m, Commit);
    assert ([Commit] + tail)[1..] == tail;
  }

  /** Going from m to m' is what the flush result f says. */
  ghost predicate Matches<T>(m: Machine<T>, m': Machine<T>, f: Flushed<T>) {
    Erase(m'.queue) == f.queue && Values(m'.sent) == Values(m.sent) + f.sent && m'.flight == Idle
  }

  lemma MatchesAfter<T>(m: Machine<T>, mid: Machine<T>, m': Machine<T>, now: seq<T>, f: Flushed<T>)
    requires Values(mid.sent) == Values(m.sent) + now && Matches(mid, m', f)
    ensures Matches(m, m', f.(sent := now + f.sent))
  {
    assert (Values(m.sent) + now) + f.sent == Values(m.sent) + (now + f.sent);
  }

  /** RingBuffer.Flush is one of the machine's runs: same buffer, same deliveries. */
  lemma {:induction false} FlushIsARun<T>(m: Machine<T>, env: seq<Attempt<T>>, i: nat)
    requires 0 < m.cap == |env| && |m.queue.items| <= m.cap && i <= |env| && m.flight == Looking(i)
    ensures Matches(m, Run(m, FlushEvents(Erase(m.queue), m.cap, env, i)), FlushFrom(Erase(m.queue), m.cap, env, i))
    decreases |env| - i
  {
    var q := Erase(m.queue);
    var events := FlushEvents(q, m.cap, env, i);
    if i == |env| {
      assert Run(m, [Peek]) == Step(m, Peek);
    } else if ApplyOps(q, m.cap, env[i].before).items == [] {
      RunPeek(m, env[i].before);
    } else {
      var a := env[i];
      RunAttempt(m, a);
      var m4 := Run(m, AttemptEvents(a));
      if a.outcome.Failed? {
        assert events == AttemptEvents(a);
      } else {
        var m5 := Step(m4, Commit);
        var tail := FlushEvents(Erase(m5.queue), m.cap, env, i + 1);
        RunCommit(m4, tail);
        assert events == AttemptEvents(a) + ([Commit] + tail);
        RunAppend(m, AttemptEvents(a), [Commit] + tail);
        FlushIsARun(m5, env, i + 1);
        var now := if a.outcome.Delivered? then [ApplyOps(q, m.cap, a.before).items[0]] else [];
        MatchesAfter(m, m5, Run(m, events), now, FlushFrom(Erase(m5.queue), m.cap, env, i + 1));
      }
    }
  }
}
