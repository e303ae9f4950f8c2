/** The ordered upload queue: a bounded channel between the socket read loop and one writer,
    with a bounded memory of uploads that failed. */
module UploadQueue {
  import opened Text

  const MaxMessageSize: nat := 128 * 1024
  const MaxFailed: nat := 128

  /** One file.write message: its connection, its upload's request ID, its size, its data. */
  datatype Chunk = Chunk(conn: nat, id: string, size: nat, data: string)

  /** What the writer holds: nothing, a chunk it has taken, or one it found not failed. */
  datatype Hand = Idle | Took(x: Chunk) | Cleared(x: Chunk)

  /** The channel, the failed IDs, the chunk the read loop is enqueueing, the writer's chunk
      and the connections whose context has ended. */
  datatype Queue = Queue(messages: seq<Chunk>, failed: set<string>, offer: Option<Chunk>, hand: Hand, ended: set<nat>)

  // ----------------------------------------------------------------- atomic sections

  predicate IsFailed(failed: set<string>, id: string) {
    id in failed && id != ""
  }

  function MarkFailed(failed: set<string>, id: string): set<string> {
    if id == "" then failed else (if |failed| >= MaxFailed then {} else failed) + {id}
  }

  datatype Event =
    | Offer(x: Chunk)
    | Put
    | GiveUp
    | Cancel
    | Take
    | Check
    | Handle
    | End(conn: nat)

  predicate Fits(x: Chunk) {
    x.size <= MaxMessageSize
  }

  /** Each section that a lock or the channel makes atomic; an event that cannot happen in a
      state changes nothing. */
  function Next(capacity: nat, q: Queue, e: Event): Queue {
    match e
    case Offer(x) => if q.offer.Some? || !Fits(x) || IsFailed(q.failed, x.id) then q else q.(offer := Some(x))
    case Put =>
      if q.offer.None? || |q.messages| >= capacity then q
      else q.(offer := None, messages := q.messages + [q.offer.value])
    case GiveUp => if q.offer.None? then q else q.(offer := None, failed := MarkFailed(q.failed, q.offer.value.id))
    case Cancel => if q.offer.None? || q.offer.value.conn !in q.ended then q else q.(offer := None)
    case Take => if !q.hand.Idle? || q.messages == [] then q else q.(hand := Took(q.messages[0]), messages := q.messages[1..])
    case Check =>
      if !q.hand.Took? then q
      else if IsFailed(q.failed, q.hand.x.id) then q.(hand := Idle)
      else q.(hand := Cleared(q.hand.x))
    case Handle => if !q.hand.Cleared? then q else q.(hand := Idle)
    case End(conn) => q.(ended := q.ended + {conn})
  }

  /** A chunk is let in exactly when the read loop is free, it has at most 128 KiB and its
      upload is not remembered as failed. */
  lemma OffersExactly(capacity: nat, q: Queue, x: Chunk)
    requires q.offer.None?
    ensures Next(capacity, q, Offer(x)).offer ==
      if x.size <= 131072 && (x.id == "" || x.id !in q.failed) then Some(x) else None
  {
  }

  /** What the writer does, and contexts ending, while the read loop waits. */
  predicate Elsewhere(e: Event) {
    e.Take? || e.Check? || e.Handle? || e.End?
  }

  function Played(capacity: nat, q: Queue, es: seq<Event>): Queue
    decreases |es|
  {
    if es == [] then q else Played(capacity, Next(capacity, q, es[0]), es[1..])
  }

  datatype Course = Sends | TimesOut | Ends

  function Ending(course: Course): Event {
    match course case Sends => Put case TimesOut => GiveUp case Ends => Cancel
  }

  class FileWriteQueue {
    const capacity: nat
    var messages: seq<Chunk>
    var failed: set<string>
    var offer: Option<Chunk>
    var hand: Hand
    var ended: set<nat>

    function State(): Queue
      reads this
    {
      Queue(messages, failed, offer, hand, ended)
    }

    constructor (capacity: nat)
      ensures this.capacity == capacity && State() == Queue([], {}, None, Idle, {})
    {
      this.capacity := capacity;
      messages, failed, offer, hand, ended := [], {}, None, Idle, {};
    }

    method RememberFailed(id: string)
      modifies this`failed
      ensures failed == MarkFailed(old(failed), id)
    {
      if id == "" {
        return;
      }
      if |failed| >= MaxFailed {
        failed := {};
      }
      failed := failed + {id};
    }

    /** Enqueues a chunk while the writer and ending contexts go on as `meanwhile` says
        between the failure check and the last select. Only an ended context makes it return
        false. */
    method Enqueue(x: Chunk, meanwhile: seq<Event>, course: Course) returns (more: bool)
      requires offer.None? && forall i :: 0 <= i < |meanwhile| ==> Elsewhere(meanwhile[i])
      requires var q := Played(capacity, State().(offer := Some(x)), meanwhile);
        (course.Sends? ==> |q.messages| < capacity) && (course.Ends? ==> x.conn in q.ended)
      modifies this
      ensures var q := Next(capacity, old(State()), Offer(x));
        State() == if q.offer.None? then old(State()) else Next(capacity, Played(capacity, q, meanwhile), Ending(course))
      ensures !more ==> course.Ends?
    {
      if x.size > MaxMessageSize {
        return true;
      }
      if IsFailed(failed, x.id) {
        return true;
      }
      offer := Some(x);
      WaitFor(meanwhile);
      more := Finish(x, course);
    }

    /** The select that ends an enqueue. */
    method Finish(x: Chunk, course: Course) returns (more: bool)
      requires offer == Some(x)
      requires (course.Sends? ==> |messages| < capacity) && (course.Ends? ==> x.conn in ended)
      modifies this
      ensures State() == Next(capacity, old(State()), Ending(course)) && (!more ==> course.Ends?)
    {
      offer := None;
      if course.Sends? {
        messages := messages + [x];
        return true;
      }
      if course.Ends? {
        return false;
      }
      RememberFailed(x.id);
      return true;
    }

    method WaitFor(meanwhile: seq<Event>)
      requires forall i :: 0 <= i < |meanwhile| ==> Elsewhere(meanwhile[i])
      modifies this
      ensures State() == Played(capacity, old(State()), meanwhile) && offer == old(offer)
    {
      var i := 0;
      assert meanwhile[0..] == meanwhile;
      while i < |meanwhile|
        invariant i <= |meanwhile| && offer == old(offer)
        invariant Played(capacity, State(), meanwhile[i..]) == Played(capacity, old(State()), meanwhile)
      {
        assert meanwhile[i..][1..] == meanwhile[i + 1..];
        Act(meanwhile[i]);
        i := i + 1;
      }
    }

    /** One section of the writer's loop, or a context's end. */
    method Act(e: Event)
      requires Elsewhere(e)
      modifies this
      ensures State() == Next(capacity, old(State()), e) && offer == old(offer)
    {
      match e {
        case Take =>
          if hand.Idle? && messages != [] {
            hand, messages := Took(messages[0]), messages[1..];
          }
        case Check =>
          if hand.Took? {
            hand := if IsFailed(failed, hand.x.id) then Idle else Cleared(hand.x);
          }
        case Handle =>
          if hand.Cleared? {
            hand := Idle;
          }
        case End(conn) => ended := ended + {conn};
      }
    }
  }

  // --------------------------------------------------------------------------- runs

  /** With what a run has done so far: the chunks of acceptable size offered, the chunks
      handled, and the IDs that were forgotten after they had failed. */
  datatype World = World(q: Queue, accepted: seq<Chunk>, handled: seq<Chunk>, forgotten: set<string>)

  const Initially := World(Queue([], {}, None, Idle, {}), [], [], {})

  predicate Handles(q: Queue, e: Event) {
    e.Handle? && q.hand.Cleared? && q.hand.x.conn !in q.ended
  }

  function Step(capacity: nat, w: World, e: Event): World {
    var q := Next(capacity, w.q, e);
    World(
      q,
      if e.Offer? && w.q.offer.None? && Fits(e.x) then w.accepted + [e.x] else w.accepted,
      if Handles(w.q, e) then w.handled + [w.q.hand.x] else w.handled,
      w.forgotten + (w.q.failed - q.failed))
  }

  function Run(capacity: nat, es: seq<Event>): World
    decreases |es|
  {
    if es == [] then Initially else Step(capacity, Run(capacity, Front(es)), Last(es))
  }

  // -------------------------------------------------------------- one upload's chunks

  predicate Is(x: Chunk, conn: nat, id: string) {
    x.conn == conn && x.id == id
  }

  /** The chunks of one upload on one connection. */
  function Of(xs: seq<Chunk>, conn: nat, id: string): seq<Chunk> {
    if xs == [] then []
    else if Is(xs[0], conn, id) then [xs[0]] + Of(xs[1..], conn, id)
    else Of(xs[1..], conn, id)
  }

  lemma {:induction false} OfAppend(a: seq<Chunk>, b: seq<Chunk>, conn: nat, id: string)
    ensures Of(a + b, conn, id) == Of(a, conn, id) + Of(b, conn, id)
  {
    if a == [] {
      assert a + b == b;
    } else {
      assert (a + b)[1..] == a[1..] + b;
      OfAppend(a[1..], b, conn, id);
    }
  }

  lemma OfOne(x: Chunk, conn: nat, id: string)
    ensures Of([x], conn, id) == if Is(x, conn, id) then [x] else []
  {
  }

  function Held(h: Hand): seq<Chunk> {
    if h.Idle? then [] else [h.x]
  }

  function Offered(o: Option<Chunk>): seq<Chunk> {
    if o.Some? then [o.value] else []
  }

  function Upstream(q: Queue): seq<Chunk> {
    Held(q.hand) + (q.messages + Offered(q.offer))
  }

  /** Neither failed nor forgotten, on a live connection: nothing of the upload is lost. */
  ghost predicate Whole(w: World, conn: nat, id: string) {
    Of(w.handled, conn, id) + Of(Upstream(w.q), conn, id) == Of(w.accepted, conn, id)
  }

  /** What is handled, with a cleared chunk about to be, is a prefix of what was accepted. */
  ghost predicate InOrder(w: World, conn: nat, id: string) {
    var next := if w.q.hand.Cleared? && conn !in w.q.ended then Held(w.q.hand) else [];
    Of(w.handled, conn, id) + Of(next, conn, id) <= Of(w.accepted, conn, id)
  }

  ghost predicate Inv(w: World, conn: nat, id: string) {
    id !in w.forgotten ==>
      && InOrder(w, conn, id)
      && (id !in w.q.failed && conn !in w.q.ended ==> Whole(w, conn, id))
  }

  // ---------------------------------------------------------------- one lemma a step

  lemma OfferKeeps(capacity: nat, w: World, x: Chunk, conn: nat, id: string)
    requires Inv(w, conn, id) && id != ""
    ensures Inv(Step(capacity, w, Offer(x)), conn, id)
  {
    var w' := Step(capacity, w, Offer(x));
    if w.q.offer.None? && Fits(x) {
      OfAppend(w.accepted, [x], conn, id);
      OfOne(x, conn, id);
      if !IsFailed(w.q.failed, x.id) {
        assert Upstream(w'.q) == Upstream(w.q) + [x];
        OfAppend(Upstream(w.q), [x], conn, id);
      }
    }
  }

  lemma PutKeeps(capacity: nat, w: World, conn: nat, id: string)
    requires Inv(w, conn, id)
    ensures Inv(Step(capacity, w, Put), conn, id)
  {
    assert Upstream(Next(capacity, w.q, Put)) == Upstream(w.q);
  }

  lemma GiveUpKeeps(capacity: nat, w: World, conn: nat, id: string)
    requires Inv(w, conn, id) && id != ""
    ensures Inv(Step(capacity, w, GiveUp), conn, id)
  {
    if w.q.offer.Some? {
      DropOffer(w.q, conn, id);
    }
  }

  /** Letting go of an offer of another upload. */
  lemma DropOffer(q: Queue, conn: nat, id: string)
    requires q.offer.Some?
    ensures !Is(q.offer.value, conn, id) ==> Of(Upstream(q.(offer := None)), conn, id) == Of(Upstream(q), conn, id)
  {
    var x := q.offer.value;
    assert Upstream(q) == Upstream(q.(offer := None)) + [x];
    OfAppend(Upstream(q.(offer := None)), [x], conn, id);
    OfOne(x, conn, id);
  }

  lemma CancelKeeps(capacity: nat, w: World, conn: nat, id: string)
    requires Inv(w, conn, id)
    ensures Inv(Step(capacity, w, Cancel), conn, id)
  {
    if w.q.offer.Some? {
      DropOffer(w.q, conn, id);
    }
  }

  lemma TakeKeeps(capacity: nat, w: World, conn: nat, id: string)
    requires Inv(w, conn, id)
    ensures Inv(Step(capacity, w, Take), conn, id)
  {
    assert Upstream(Next(capacity, w.q, Take)) == Upstream(w.q);
  }

  /** What the writer holds comes first. */
  lemma HeldFirst(q: Queue, conn: nat, id: string)
    requires !q.hand.Idle?
    ensures Of(Upstream(q), conn, id) == Of(Held(q.hand), conn, id) + Of(Upstream(q.(hand := Idle)), conn, id)
    ensures Of(Held(q.hand), conn, id) == if Is(q.hand.x, conn, id) then [q.hand.x] else []
  {
    assert Upstream(q.(hand := Idle)) == q.messages + Offered(q.offer);
    OfAppend(Held(q.hand), q.messages + Offered(q.offer), conn, id);
    OfOne(q.hand.x, conn, id);
  }

  lemma CheckSkips(w: World, conn: nat, id: string)
    requires Inv(w, conn, id) && id != "" && w.q.hand.Took? && IsFailed(w.q.failed, w.q.hand.x.id)
    ensures Inv(w.(q := w.q.(hand := Idle)), conn, id)
  {
    HeldFirst(w.q, conn, id);
    EmptyFront(Of(Upstream(w.q.(hand := Idle)), conn, id));
  }

  lemma CheckClears(w: World, conn: nat, id: string)
    requires Inv(w, conn, id) && id != "" && w.q.hand.Took? && !IsFailed(w.q.failed, w.q.hand.x.id)
    ensures Inv(w.(q := w.q.(hand := Cleared(w.q.hand.x))), conn, id)
  {
    var q' := w.q.(hand := Cleared(w.q.hand.x));
    HeldFirst(w.q, conn, id);
    assert Upstream(q') == Upstream(w.q) && Held(q'.hand) == Held(w.q.hand);
    StillPrefix(Of(w.handled, conn, id), Of(Held(w.q.hand), conn, id), Of(Upstream(w.q.(hand := Idle)), conn, id));
  }

  lemma StillPrefix(a: seq<Chunk>, b: seq<Chunk>, c: seq<Chunk>)
    ensures a + b <= a + (b + c) && a <= a + (b + c)
  {
  }

  lemma CheckKeeps(capacity: nat, w: World, conn: nat, id: string)
    requires Inv(w, conn, id) && id != ""
    ensures Inv(Step(capacity, w, Check), conn, id)
  {
    assert w.q.failed - w.q.failed == {} && w.forgotten + {} == w.forgotten;
    if w.q.hand.Took? {
      if IsFailed(w.q.failed, w.q.hand.x.id) {
        CheckSkips(w, conn, id);
      } else {
        CheckClears(w, conn, id);
      }
    }
  }

  lemma HandleKeeps(capacity: nat, w: World, conn: nat, id: string)
    requires Inv(w, conn, id)
    ensures Inv(Step(capacity, w, Handle), conn, id)
  {
    if w.q.hand.Cleared? {
      HeldFirst(w.q, conn, id);
      OfAppend(w.handled, [w.q.hand.x], conn, id);
      var h, r := Of(w.handled, conn, id), Of(Upstream(w.q.(hand := Idle)), conn, id);
      var x := Of(Held(w.q.hand), conn, id);
      assert h + (x + r) == (h + x) + r;
      assert h + [] == h;
    }
  }

  lemma EndKeeps(capacity: nat, w: World, ended: nat, conn: nat, id: string)
    requires Inv(w, conn, id)
    ensures Inv(Step(capacity, w, End(ended)), conn, id)
  {
    assert Of(w.handled, conn, id) + [] == Of(w.handled, conn, id);
  }

  lemma StepKeeps(capacity: nat, w: World, e: Event, conn: nat, id: string)
    requires Inv(w, conn, id) && id != ""
    ensures Inv(Step(capacity, w, e), conn, id)
  {
    match e
    case Offer(x) => OfferKeeps(capacity, w, x, conn, id);
    case Put => PutKeeps(capacity, w, conn, id);
    case GiveUp => GiveUpKeeps(capacity, w, conn, id);
    case Cancel => CancelKeeps(capacity, w, conn, id);
    case Take => TakeKeeps(capacity, w, conn, id);
    case Check => CheckKeeps(capacity, w, conn, id);
    case Handle => HandleKeeps(capacity, w, conn, id);
    case End(ended) => EndKeeps(capacity, w, ended, conn, id);
  }

  lemma {:induction false} RunKeeps(capacity: nat, es: seq<Event>, conn: nat, id: string)
    requires id != ""
    ensures Inv(Run(capacity, es), conn, id)
    decreases |es|
  {
    if es != [] {
      RunKeeps(capacity, Front(es), conn, id);
      StepKeeps(capacity, Run(capacity, Front(es)), Last(es), conn, id);
    }
  }

  // ------------------------------------------------------------------- main results

  /** In every interleaving of the read loop, the writer and ending connections, the chunks
      of an upload that the writer handles are a prefix, in delivery order, of its chunks of
      acceptable size, as long as its ID was not forgotten. After one dropped chunk no later
      one is handled. */
  lemma HandledInOrder(capacity: nat, es: seq<Event>, conn: nat, id: string)
    requires id != "" && id !in Run(capacity, es).forgotten
    ensures var w := Run(capacity, es); Of(w.handled, conn, id) <= Of(w.accepted, conn, id)
  {
    RunKeeps(capacity, es, conn, id);
  }

  /** Once the queue has drained, an upload that never failed on a live connection has had
      every chunk handled. */
  lemma AllHandledWhenDrained(capacity: nat, es: seq<Event>, conn: nat, id: string)
    requires var w := Run(capacity, es);
      id != "" && id !in w.forgotten && id !in w.q.failed && conn !in w.q.ended && Upstream(w.q) == []
    ensures var w := Run(capacity, es); Of(w.handled, conn, id) == Of(w.accepted, conn, id)
  {
    RunKeeps(capacity, es, conn, id);
    var w := Run(capacity, es);
    assert Of(w.handled, conn, id) + [] == Of(w.handled, conn, id);
  }

  // ------------------------------------------------------------------------- bounds

  lemma MarkBounded(failed: set<string>, id: string)
    requires |failed| <= MaxFailed
    ensures |MarkFailed(failed, id)| <= MaxFailed
    ensures failed - MarkFailed(failed, id) != {} ==> |failed| == MaxFailed
  {
    if |failed| < MaxFailed {
      assert failed - (failed + {id}) == {};
    }
  }

  ghost predicate Bounded(capacity: nat, q: Queue) {
    |q.messages| <= capacity && |q.failed| <= MaxFailed
  }

  lemma NextBounded(capacity: nat, q: Queue, e: Event)
    requires Bounded(capacity, q)
    ensures Bounded(capacity, Next(capacity, q, e))
    ensures q.failed - Next(capacity, q, e).failed != {} ==> e.GiveUp? && |q.failed| == MaxFailed
  {
    if e.GiveUp? && q.offer.Some? {
      MarkBounded(q.failed, q.offer.value.id);
    }
  }

  /** The channel and the memory of failures stay bounded, and an ID is forgotten only by a
      failure that finds 128 others remembered. */
  lemma {:induction false} QueueBounded(capacity: nat, es: seq<Event>)
    ensures Bounded(capacity, Run(capacity, es).q)
    ensures es != [] && Run(capacity, es).forgotten != Run(capacity, Front(es)).forgotten ==>
      Last(es).GiveUp? && |Run(capacity, Front(es)).q.failed| == MaxFailed
    decreases |es|
  {
    if es != [] {
      QueueBounded(capacity, Front(es));
      var w := Run(capacity, Front(es));
      NextBounded(capacity, w.q, Last(es));
      assert w.forgotten + {} == w.forgotten;
    }
  }

  // ------------------------------------------------------- up to 128 failed uploads

  /** How often the read loop gave up on a chunk. */
  function GiveUps(es: seq<Event>): nat
    decreases |es|
  {
    if es == [] then 0 else GiveUps(Front(es)) + if Last(es).GiveUp? then 1 else 0
  }

  lemma MarkGrows(failed: set<string>, id: string)
    ensures |MarkFailed(failed, id)| <= |failed| + 1
  {
  }

  lemma NextCounted(capacity: nat, q: Queue, e: Event)
    ensures |Next(capacity, q, e).failed| <= |q.failed| + if e.GiveUp? then 1 else 0
  {
    if e.GiveUp? && q.offer.Some? {
      MarkGrows(q.failed, q.offer.value.id);
    }
  }

  lemma {:induction false} FailedCounted(capacity: nat, es: seq<Event>)
    ensures |Run(capacity, es).q.failed| <= GiveUps(es)
    decreases |es|
  {
    if es != [] {
      FailedCounted(capacity, Front(es));
      NextCounted(capacity, Run(capacity, Front(es)).q, Last(es));
    }
  }

  /** While the read loop has given up at most 128 times, nothing is forgotten. */
  lemma {:induction false} NothingForgotten(capacity: nat, es: seq<Event>)
    requires GiveUps(es) <= MaxFailed
    ensures Run(capacity, es).forgotten == {}
    decreases |es|
  {
    if es != [] {
      NothingForgotten(capacity, Front(es));
      FailedCounted(capacity, Front(es));
      QueueBounded(capacity, es);
    }
  }

  /** So in every run with at most 128 give-ups, each upload's handled chunks are a prefix of
      its chunks of acceptable size, in delivery order. */
  lemma HandledInOrderWithin(capacity: nat, es: seq<Event>, conn: nat, id: string)
    requires id != "" && GiveUps(es) <= MaxFailed
    ensures var w := Run(capacity, es); Of(w.handled, conn, id) <= Of(w.accepted, conn, id)
  {
    NothingForgotten(capacity, es);
    HandledInOrder(capacity, es, conn, id);
  }

  // --------------------------------------------------------- a run with one more

  function Name(n: nat): (id: string)
    ensures |id| == n + 1
  {
    seq(n + 1, _ => 'u')
  }

  function Names(n: nat): set<string> {
    if n == 0 then {} else Names(n - 1) + {Name(n - 1)}
  }

  lemma {:induction false} NamesDistinct(n: nat, k: nat)
    ensures |Names(n)| == n && (k >= n ==> Name(k) !in Names(n)) && (k < n ==> Name(k) in Names(n))
  {
    if n > 0 {
      NamesDistinct(n - 1, k);
      NamesDistinct(n - 1, n - 1);
      assert |Name(k)| == k + 1 && |Name(n - 1)| == n;
    }
  }

  function First(n: nat): Chunk {
    Chunk(0, Name(n), 1, "")
  }

  /** The read loop gives up on the first chunk of n uploads. */
  function Failures(n: nat): seq<Event> {
    if n == 0 then [] else Failures(n - 1) + [Offer(First(n - 1)), GiveUp]
  }

  lemma RunSnoc(capacity: nat, es: seq<Event>, e: Event)
    ensures Run(capacity, es + [e]) == Step(capacity, Run(capacity, es), e)
    ensures GiveUps(es + [e]) == GiveUps(es) + if e.GiveUp? then 1 else 0
  {
    assert Front(es + [e]) == es;
  }

  function Firsts(n: nat): seq<Chunk> {
    if n == 0 then [] else Firsts(n - 1) + [First(n - 1)]
  }

  /** Where n failures leave the world: nothing queued or handled, n IDs remembered. */
  function AfterFailures(n: nat): World {
    World(Queue([], Names(n), None, Idle, {}), Firsts(n), [], {})
  }

  function Forget(capacity: nat, w: World, y: Chunk): World {
    Step(capacity, Step(capacity, w, Offer(y)), GiveUp)
  }

  /** Giving up on an upload with the queue at rest, its memory not full, and full. */
  lemma GivesUp(capacity: nat, w: World, y: Chunk)
    requires w.q == Queue([], w.q.failed, None, Idle, {}) && Fits(y) && y.id != "" && y.id !in w.q.failed
    requires |w.q.failed| <= MaxFailed
    ensures var w' := Forget(capacity, w, y);
      && w'.q == Queue([], if |w.q.failed| < MaxFailed then w.q.failed + {y.id} else {y.id}, None, Idle, {})
      && w'.accepted == w.accepted + [y] && w'.handled == w.handled
      && (|w.q.failed| < MaxFailed ==> w'.forgotten == w.forgotten)
  {
    assert w.q.failed - (w.q.failed + {y.id}) == {};
  }

  lemma FailOne(capacity: nat, n: nat)
    requires n < MaxFailed
    ensures Forget(capacity, AfterFailures(n), First(n)) == AfterFailures(n + 1)
  {
    NamesDistinct(n, n);
    GivesUp(capacity, AfterFailures(n), First(n));
  }

  lemma RunTwo(capacity: nat, es: seq<Event>, e: Event, f: Event)
    ensures Run(capacity, es + [e, f]) == Step(capacity, Step(capacity, Run(capacity, es), e), f)
    ensures GiveUps(es + [e, f]) == GiveUps(es) + (if e.GiveUp? then 1 else 0) + if f.GiveUp? then 1 else 0
  {
    RunSnoc(capacity, es, e);
    RunSnoc(capacity, es + [e], f);
    assert es + [e, f] == (es + [e]) + [f];
  }

  lemma RunForget(capacity: nat, es: seq<Event>, y: Chunk, w: World)
    requires Run(capacity, es) == w
    ensures Run(capacity, es + [Offer(y), GiveUp]) == Forget(capacity, w, y)
    ensures GiveUps(es + [Offer(y), GiveUp]) == GiveUps(es) + 1
  {
    RunTwo(capacity, es, Offer(y), GiveUp);
  }

  lemma RunFailOne(capacity: nat, es: seq<Event>, n: nat)
    requires n < MaxFailed && Run(capacity, es) == AfterFailures(n)
    ensures Run(capacity, es + [Offer(First(n)), GiveUp]) == AfterFailures(n + 1)
  {
    RunForget(capacity, es, First(n), AfterFailures(n));
    FailOne(capacity, n);
  }

  lemma FailuresNext(n: nat) returns (es: seq<Event>)
    requires n > 0
    ensures es == Failures(n - 1) && Failures(n) == es + [Offer(First(n - 1)), GiveUp]
  {
    es := Failures(n - 1);
  }

  lemma {:induction false} RunFailures(capacity: nat, n: nat, all: seq<Event>)
    requires n <= MaxFailed && all == Failures(n)
    ensures Run(capacity, all) == AfterFailures(n)
  {
    if n == 0 {
      assert all == [];
    } else {
      var es := FailuresNext(n);
      RunFailures(capacity, n - 1, es);
      RunFailOne(capacity, es, n - 1);
    }
  }

  lemma {:induction false} FailuresGiveUp(n: nat, all: seq<Event>)
    requires all == Failures(n)
    ensures GiveUps(all) == n
  {
    if n > 0 {
      var es := FailuresNext(n);
      FailuresGiveUp(n - 1, es);
      RunTwo(0, es, Offer(First(n - 1)), GiveUp);
    }
  }

  lemma {:induction false} FirstsOf(n: nat)
    requires n > 0
    ensures Of(Firsts(n), 0, Name(0)) == [First(0)]
  {
    OfAppend(Firsts(n - 1), [First(n - 1)], 0, Name(0));
    OfOne(First(n - 1), 0, Name(0));
    if n > 1 {
      FirstsOf(n - 1);
      assert |First(n - 1).id| == n && |Name(0)| == 1;
    }
  }

  /** Another upload fails, and then a chunk is offered and goes all the way. */
  function Resuming(y: Chunk, x: Chunk): seq<Event> {
    [Offer(y), GiveUp, Offer(x), Put, Take, Check, Handle]
  }

  function Enter(capacity: nat, w: World, x: Chunk): World {
    Step(capacity, Step(capacity, w, Offer(x)), Put)
  }

  function Write(capacity: nat, w: World): World {
    Step(capacity, Step(capacity, Step(capacity, w, Take), Check), Handle)
  }

  lemma RunResuming(capacity: nat, es: seq<Event>, y: Chunk, x: Chunk)
    ensures Run(capacity, es + Resuming(y, x)) == Write(capacity, Enter(capacity, Forget(capacity, Run(capacity, es), y), x))
  {
    var a := es + [Offer(y), GiveUp];
    var b := a + [Offer(x), Put];
    var c := b + [Take, Check];
    assert es + Resuming(y, x) == c + [Handle];
    RunTwo(capacity, es, Offer(y), GiveUp);
    RunTwo(capacity, a, Offer(x), Put);
    RunTwo(capacity, b, Take, Check);
    RunSnoc(capacity, c, Handle);
  }

  lemma EntersQueue(capacity: nat, w: World, x: Chunk)
    requires w.q == Queue([], w.q.failed, None, Idle, {}) && !IsFailed(w.q.failed, x.id) && Fits(x) && capacity > 0
    ensures var v := Enter(capacity, w, x);
      v.q == Queue([x], w.q.failed, None, Idle, {}) && v.handled == w.handled && v.accepted == w.accepted + [x]
  {
  }

  lemma IsWritten(capacity: nat, v: World, x: Chunk)
    requires v.q == Queue([x], v.q.failed, None, Idle, {}) && !IsFailed(v.q.failed, x.id)
    ensures var u := Write(capacity, v); u.handled == v.handled + [x] && u.accepted == v.accepted
  {
    var t := Step(capacity, v, Take);
    assert t.q == Queue([], v.q.failed, None, Took(x), {}) && t.handled == v.handled && t.accepted == v.accepted;
  }

  /** The failure of another upload empties a full memory, and the next chunk of a forgotten
      upload is handled. */
  lemma ForgottenResumes(capacity: nat, w: World, x: Chunk, y: Chunk)
    requires w.q == Queue([], w.q.failed, None, Idle, {}) && |w.q.failed| == MaxFailed
    requires x.id in w.q.failed && y.id !in w.q.failed && y.id != "" && Fits(x) && Fits(y) && capacity > 0
    ensures var v := Write(capacity, Enter(capacity, Forget(capacity, w, y), x));
      v.handled == w.handled + [x] && v.accepted == w.accepted + [y] + [x]
  {
    GivesUp(capacity, w, y);
    EntersQueue(capacity, Forget(capacity, w, y), x);
    IsWritten(capacity, Enter(capacity, Forget(capacity, w, y), x), x);
  }

  const Second := Chunk(0, Name(0), 2, "")

  /** n uploads fail, one more does, and the first one's second chunk arrives. */
  function SharpRun(n: nat): seq<Event> {
    Failures(n) + Resuming(First(n), Second)
  }

  lemma SharpRunEnds(capacity: nat, n: nat)
    requires capacity > 0 && n == MaxFailed
    ensures var w := Run(capacity, SharpRun(n));
      w.handled == [Second] && w.accepted == Firsts(n) + [First(n)] + [Second]
  {
    NamesDistinct(n, 0);
    NamesDistinct(n, n);
    RunFailures(capacity, n, Failures(n));
    RunResuming(capacity, Failures(n), First(n), Second);
    ForgottenResumes(capacity, AfterFailures(n), Second, First(n));
  }

  lemma SharpProjection(n: nat)
    requires n > 0
    ensures Of(Firsts(n) + [First(n)] + [Second], 0, Name(0)) == [First(0), Second]
    ensures Of([Second], 0, Name(0)) == [Second] && !([Second] <= [First(0), Second])
  {
    var y := First(n);
    FirstsOf(n);
    OfAppend(Firsts(n), [y], 0, Name(0));
    OfAppend(Firsts(n) + [y], [Second], 0, Name(0));
    OfOne(y, 0, Name(0));
    OfOne(Second, 0, Name(0));
    assert |y.id| == n + 1 && |Name(0)| == 1;
    assert [First(0)] + [] + [Second] == [First(0), Second];
    assert First(0).size != Second.size;
  }

  lemma SharpRunGivesUp(n: nat)
    ensures GiveUps(SharpRun(n)) == n + 1
  {
    var y, es := First(n), Failures(n);
    FailuresGiveUp(n, es);
    var a := es + [Offer(y), GiveUp];
    var b := a + [Offer(Second), Put];
    var c := b + [Take, Check];
    assert SharpRun(n) == c + [Handle];
    RunTwo(0, es, Offer(y), GiveUp);
    RunTwo(0, a, Offer(Second), Put);
    RunTwo(0, b, Take, Check);
    RunSnoc(0, c, Handle);
  }

  /** The bound is sharp: from the start, a run with 129 give-ups in which an upload's second
      chunk is handled and its first is not. */
  lemma OneMoreFailure(capacity: nat, n: nat)
    requires capacity > 0 && n == MaxFailed
    ensures GiveUps(SharpRun(n)) == MaxFailed + 1
    ensures var w := Run(capacity, SharpRun(n));
      && Of(w.accepted, 0, Name(0)) == [First(0), Second] && Of(w.handled, 0, Name(0)) == [Second]
      && !(Of(w.handled, 0, Name(0)) <= Of(w.accepted, 0, Name(0)))
  {
    SharpRunGivesUp(n);
    SharpRunEnds(capacity, n);
    SharpProjection(n);
  }
}
