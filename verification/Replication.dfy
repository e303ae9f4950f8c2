/** The published inventory as a protocol: what the agent sends, what it records, and what a
    receiver that only sees the delivered messages holds. */
module DockerReplication {
  import opened Text
  import opened DockerInventory

  const NoInventory := Inventory(map[], [], Rest(Engine("", "", "", ""), map[], map[], map[]))

  datatype Collector = Collector(inv: Inventory, published: bool, last: string, running: set<string>)

  datatype Message =
    | Full(host: string, inv: Inventory)
    | Delta(host: string, upserts: map<string, Container>, removals: set<string>, compose: Option<seq<Stack>>)

  /** What one container listing, and one complete scan, give. */
  datatype Listing = Listing(containers: map<string, Container>, compose: seq<Stack>, running: set<string>)
  datatype Scan = Scan(inv: Inventory, running: set<string>)

  /** What one full refresh meets: connection, scan result and send result. */
  datatype Meets = Meets(asset: string, connected: bool, scan: Option<Scan>, sendOk: bool)

  /** The state after a refresh and the message it tried to send. */
  datatype Outcome = Outcome(next: Collector, tried: Option<Message>)

  // ---------------------------------------------------------------------- refreshes

  function FullRefresh(c: Collector, w: Meets, force: bool): Outcome {
    if !w.connected || w.scan.None? then Outcome(c, None)
    else
      var s := w.scan.value;
      var changed := (c.last != "" && c.last != w.asset) || !InventoryEqual(c.inv, s.inv);
      if !changed && !force && c.published then Outcome(c.(running := s.running), None)
      else if w.sendOk then Outcome(Collector(s.inv, true, w.asset, s.running), Some(Full(w.asset, s.inv)))
      else Outcome(c.(running := s.running), Some(Full(w.asset, s.inv)))
  }

  predicate FallsBack(changes: nat, previous: nat, composeChanged: bool) {
    changes >= 200 || (previous != 0 && (changes * 2 > previous || (composeChanged && changes > 100)))
  }

  function Changes(prev: map<string, Container>, next: map<string, Container>): nat {
    |Upserts(prev, next)| + |Removals(prev, next)|
  }

  predicate ComposeChanged(c: Collector, l: Listing) {
    !ComposeEqual(c.inv.compose, l.compose)
  }

  predicate NothingChanged(c: Collector, l: Listing) {
    Changes(c.inv.containers, l.containers) == 0 && !ComposeChanged(c, l)
  }

  function DeltaMessage(c: Collector, asset: string, l: Listing): Message {
    Delta(asset, Upserts(c.inv.containers, l.containers), Removals(c.inv.containers, l.containers),
          if ComposeChanged(c, l) then Some(l.compose) else None)
  }

  function Recorded(c: Collector, l: Listing): Collector {
    c.(inv := c.inv.(containers := l.containers, compose := l.compose), running := l.running)
  }

  /** Whether a delta refresh gets as far as a listing to compare. */
  predicate Compares(c: Collector, connected: bool, asset: string) {
    connected && c.published && (c.last == "" || c.last == asset)
  }

  /** Whether a delta refresh sends a delta. */
  predicate SendsDelta(c: Collector, connected: bool, asset: string, listing: Option<Listing>) {
    && Compares(c, connected, asset) && listing.Some? && !NothingChanged(c, listing.value)
    && !FallsBack(Changes(c.inv.containers, listing.value.containers), |c.inv.containers|, ComposeChanged(c, listing.value))
  }

  /** What a delta refresh does with a difference it found. */
  function PublishDiff(c: Collector, l: Listing, upserts: map<string, Container>, removals: set<string>,
                       composeChanged: bool, w: Meets): Outcome {
    var count := |upserts| + |removals|;
    var m := Delta(w.asset, upserts, removals, if composeChanged then Some(l.compose) else None);
    if count == 0 && !composeChanged then Outcome(c.(running := l.running), None)
    else if FallsBack(count, |c.inv.containers|, composeChanged) then FullRefresh(c, w, false)
    else if w.sendOk then Outcome(Recorded(c, l), Some(m))
    else Outcome(c.(running := l.running), Some(m))
  }

  /** refreshAndPublishContainerDelta; w is what a full refresh it turns into meets. */
  function DeltaRefresh(c: Collector, connected: bool, listing: Option<Listing>, w: Meets): Outcome {
    if !connected then Outcome(c, None)
    else if !c.published || (c.last != "" && c.last != w.asset) then FullRefresh(c, w, true)
    else if listing.None? then Outcome(c, None)
    else
      var prev, next := c.inv.containers, listing.value.containers;
      PublishDiff(c, listing.value, Upserts(prev, next), Removals(prev, next), ComposeChanged(c, listing.value), w)
  }

  /** Whether a full refresh sends: something to send, and a reason to. */
  predicate FullSends(c: Collector, w: Meets, force: bool) {
    && w.connected && w.scan.Some?
    && (force || !c.published || (c.last != "" && c.last != w.asset) || !InventoryEqual(c.inv, w.scan.value.inv))
  }

  /** Whether a delta refresh hands over to a full one that must, or may, send. */
  predicate TurnsFull(c: Collector, connected: bool, listing: Option<Listing>, w: Meets, force: bool) {
    if force then connected && (!c.published || (c.last != "" && c.last != w.asset))
    else
      && Compares(c, connected, w.asset) && listing.Some? && !NothingChanged(c, listing.value)
      && FallsBack(Changes(c.inv.containers, listing.value.containers), |c.inv.containers|, ComposeChanged(c, listing.value))
  }

  function Reset(c: Collector): Collector {
    c.(published := false, last := "")
  }

  class DockerCollector {
    var inventory: Inventory
    var hasPublishedFull: bool
    var lastPublishedAssetID: string
    var running: set<string>

    function State(): Collector
      reads this
    {
      Collector(inventory, hasPublishedFull, lastPublishedAssetID, running)
    }

    constructor ()
      ensures State() == Collector(NoInventory, false, "", {})
    {
      inventory, hasPublishedFull, lastPublishedAssetID, running := NoInventory, false, "", {};
    }

    method ResetPublishedState()
      modifies this
      ensures State() == Reset(old(State()))
    {
      hasPublishedFull := false;
      lastPublishedAssetID := "";
    }

    method RefreshAndPublishFull(w: Meets, force: bool) returns (tried: Option<Message>)
      modifies this
      ensures Outcome(State(), tried) == FullRefresh(old(State()), w, force)
    {
      tried := None;
      if !w.connected || w.scan.None? {
        return;
      }
      var scan := w.scan.value;
      var identityChanged := lastPublishedAssetID != "" && lastPublishedAssetID != w.asset;
      var changed := identityChanged || !InventoryEqual(inventory, scan.inv);
      running := scan.running;
      if !changed && !force && hasPublishedFull {
        return;
      }
      tried := Some(Full(w.asset, scan.inv));
      if w.sendOk {
        inventory := scan.inv;
        hasPublishedFull := true;
        lastPublishedAssetID := w.asset;
      }
    }

    method RefreshAndPublishContainerDelta(connected: bool, listing: Option<Listing>, w: Meets)
      returns (tried: Option<Message>)
      modifies this
      ensures Outcome(State(), tried) == DeltaRefresh(old(State()), connected, listing, w)
    {
      tried := None;
      if !connected {
        return;
      }
      if !hasPublishedFull || (lastPublishedAssetID != "" && lastPublishedAssetID != w.asset) {
        tried := RefreshAndPublishFull(w, true);
        return;
      }
      if listing.Some? {
        tried := PublishChanges(listing.value, w);
      }
    }

    /** Compares a listing with the record. */
    method PublishChanges(next: Listing, w: Meets) returns (tried: Option<Message>)
      requires Compares(State(), true, w.asset)
      modifies this
      ensures Outcome(State(), tried) == DeltaRefresh(old(State()), true, Some(next), w)
    {
      var upserts, removals := Diff(inventory.containers, next.containers);
      var composeChanged := !ComposeEqual(inventory.compose, next.compose);
      tried := Publish(next, upserts, removals, composeChanged, w);
    }

    method Publish(next: Listing, upserts: map<string, Container>, removals: set<string>, composeChanged: bool, w: Meets)
      returns (tried: Option<Message>)
      modifies this
      ensures Outcome(State(), tried) == PublishDiff(old(State()), next, upserts, removals, composeChanged, w)
    {
      tried := None;
      var count := |upserts| + |removals|;
      if count == 0 && !composeChanged {
        running := next.running;
        return;
      }
      var falls := ShouldFallbackToFull(count, |inventory.containers|, composeChanged);
      if falls {
        tried := RefreshAndPublishFull(w, false);
        return;
      }
      tried := Some(Delta(w.asset, upserts, removals, if composeChanged then Some(next.compose) else None));
      running := next.running;
      if w.sendOk {
        inventory := inventory.(containers := next.containers, compose := next.compose);
      }
    }
  }

  method ShouldFallbackToFull(changes: nat, previous: nat, composeChanged: bool) returns (r: bool)
    ensures r <==> FallsBack(changes, previous, composeChanged)
    ensures r <==>
      (changes >= 200 || (previous > 0 && changes > previous - changes) || (previous > 0 && composeChanged && changes > 100))
  {
    if changes >= 200 {
      return true;
    }
    if previous == 0 {
      return false;
    }
    if changes * 2 > previous {
      return true;
    }
    if composeChanged && changes > 100 {
      return true;
    }
    return false;
  }

  // ----------------------------------------------------------------------- receiver

  /** What a receiver that applies each message to its copy holds afterwards. */
  function Received(r: Inventory, m: Message): Inventory {
    match m
    case Full(_, inv) => inv
    case Delta(_, upserts, removals, compose) =>
      r.(containers := ApplyDelta(r.containers, upserts, removals),
         compose := if compose.Some? then compose.value else r.compose)
  }

  /** A send attempt with its result, or a reset of the published state. */
  datatype Entry = Sent(m: Message, ok: bool) | WasReset

  function Replica(log: seq<Entry>): Inventory
    decreases |log|
  {
    if log == [] then NoInventory
    else
      var r := Replica(Front(log));
      if Last(log).Sent? && Last(log).ok then Received(r, Last(log).m) else r
  }

  // --------------------------------------------------------------------------- runs

  /** Whether a reconnect resets the published state while a refresh is under way: between
      its reads and its send, or between its send and its recording. */
  datatype Race = Alone | BeforeSend | AfterSend

  datatype Event =
    | FullDue(w: Meets, force: bool, race: Race)
    | DeltaDue(connected: bool, listing: Option<Listing>, w: Meets, race: Race)
    | Reconnected

  datatype World = World(c: Collector, log: seq<Entry>)

  const Initially := World(Collector(NoInventory, false, "", {}), [])

  function Refresh(c: Collector, e: Event): Outcome
    requires !e.Reconnected?
  {
    match e
    case FullDue(w, force, _) => FullRefresh(c, w, force)
    case DeltaDue(connected, listing, w, _) => DeltaRefresh(c, connected, listing, w)
  }

  function Attempt(tried: Option<Message>, ok: bool): seq<Entry> {
    if tried.Some? then [Sent(tried.value, ok)] else []
  }

  function RacedLog(log: seq<Entry>, tried: Option<Message>, ok: bool, race: Race): seq<Entry> {
    match race
    case Alone => log + Attempt(tried, ok)
    case BeforeSend => log + [WasReset] + Attempt(tried, ok)
    case AfterSend => log + Attempt(tried, ok) + [WasReset]
  }

  /** Only recording a delivered full snapshot sets flag and host again, after any reset. */
  function RacedState(o: Outcome, ok: bool, race: Race): Collector {
    if race.Alone? || (o.tried.Some? && o.tried.value.Full? && ok) then o.next else Reset(o.next)
  }

  function Step(s: World, e: Event): World {
    if e.Reconnected? then World(Reset(s.c), s.log + [WasReset])
    else
      var o := Refresh(s.c, e);
      World(RacedState(o, e.w.sendOk, e.race), RacedLog(s.log, o.tried, e.w.sendOk, e.race))
  }

  function Run(s: World, es: seq<Event>): World
    decreases |es|
  {
    if es == [] then s else Step(Run(s, Front(es)), Last(es))
  }

  // ------------------------------------------------------------- what a refresh does

  predicate SendsFull(c: Collector, e: Event) {
    || (e.FullDue? && FullSends(c, e.w, e.force))
    || (e.DeltaDue? && TurnsFull(c, e.connected, e.listing, e.w, true) && FullSends(c, e.w, true))
    || (e.DeltaDue? && TurnsFull(c, e.connected, e.listing, e.w, false) && FullSends(c, e.w, false))
  }

  predicate PublishesDelta(c: Collector, e: Event) {
    e.DeltaDue? && SendsDelta(c, e.connected, e.w.asset, e.listing)
  }

  function FullOutcome(c: Collector, w: Meets): Outcome
    requires w.scan.Some?
  {
    var s := w.scan.value;
    Outcome(if w.sendOk then Collector(s.inv, true, w.asset, s.running) else c.(running := s.running),
            Some(Full(w.asset, s.inv)))
  }

  function DeltaOutcome(c: Collector, w: Meets, l: Listing): Outcome {
    Outcome(if w.sendOk then Recorded(c, l) else c.(running := l.running), Some(DeltaMessage(c, w.asset, l)))
  }

  ghost predicate Quiet(c: Collector, o: Outcome) {
    o.tried.None? && o.next == c.(running := o.next.running)
  }

  lemma FullShape(c: Collector, w: Meets, force: bool)
    ensures if FullSends(c, w, force) then FullRefresh(c, w, force) == FullOutcome(c, w)
      else Quiet(c, FullRefresh(c, w, force))
  {
  }

  lemma DeltaShape(c: Collector, connected: bool, listing: Option<Listing>, w: Meets)
    ensures var o := DeltaRefresh(c, connected, listing, w);
      if SendsDelta(c, connected, w.asset, listing) then o == DeltaOutcome(c, w, listing.value)
      else if TurnsFull(c, connected, listing, w, true) then o == FullRefresh(c, w, true)
      else if TurnsFull(c, connected, listing, w, false) then o == FullRefresh(c, w, false)
      else Quiet(c, o)
  {
  }

  /** The guards decide: a refresh tries a full snapshot, a delta or nothing. */
  lemma RefreshShape(c: Collector, e: Event)
    requires !e.Reconnected?
    ensures var o := Refresh(c, e);
      if SendsFull(c, e) then o == FullOutcome(c, e.w)
      else if PublishesDelta(c, e) then o == DeltaOutcome(c, e.w, e.listing.value)
      else Quiet(c, o)
  {
    if e.FullDue? {
      FullShape(c, e.w, e.force);
    } else {
      DeltaShape(c, e.connected, e.listing, e.w);
      FullShape(c, e.w, true);
      FullShape(c, e.w, false);
    }
  }

  // ------------------------------------------------------- replica and record agree

  /** The Compose lists that Docker listings give rise to. */
  ghost predicate Sound(e: Event) {
    && (!e.Reconnected? && e.w.scan.Some? ==> ByNameAscending(e.w.scan.value.inv.compose))
    && (e.DeltaDue? && e.listing.Some? ==> ByNameAscending(e.listing.value.compose))
  }

  ghost predicate AllSound(es: seq<Event>) {
    forall i :: 0 <= i < |es| ==> Sound(es[i])
  }

  /** A delta goes out whose comparison missed a lost empty label. */
  ghost predicate Loses(c: Collector, e: Event) {
    PublishesDelta(c, e) && e.w.sendOk && !NoSilentChange(c.inv.containers, e.listing.value.containers)
  }

  ghost predicate Agrees(s: World) {
    Replica(s.log) == s.c.inv
  }

  ghost predicate Sorted(s: World) {
    ByNameAscending(s.c.inv.compose)
  }

  function Delivered(r: Inventory, tried: Option<Message>, ok: bool): Inventory {
    if tried.Some? && ok then Received(r, tried.value) else r
  }

  lemma ReplicaGrows(log: seq<Entry>, x: Entry)
    ensures Replica(log + [x]) == (if x.Sent? && x.ok then Received(Replica(log), x.m) else Replica(log))
  {
    assert Front(log + [x]) == log;
  }

  lemma AttemptDelivers(log: seq<Entry>, tried: Option<Message>, ok: bool)
    ensures Replica(log + Attempt(tried, ok)) == Delivered(Replica(log), tried, ok)
  {
    if tried.Some? {
      ReplicaGrows(log, Sent(tried.value, ok));
    } else {
      assert log + [] == log;
    }
  }

  /** A reset changes neither the record nor the replica, wherever it falls. */
  lemma RaceChangesNoInventory(log: seq<Entry>, o: Outcome, ok: bool, race: Race)
    ensures RacedState(o, ok, race).inv == o.next.inv
    ensures Replica(RacedLog(log, o.tried, ok, race)) == Delivered(Replica(log), o.tried, ok)
  {
    AttemptDelivers(log, o.tried, ok);
    AttemptDelivers(log + [WasReset], o.tried, ok);
    ReplicaGrows(log, WasReset);
    ReplicaGrows(log + Attempt(o.tried, ok), WasReset);
  }

  /** What a step does to record and replica, by what the guards say. */
  lemma StepInventory(s: World, e: Event)
    ensures var r, s' := Replica(s.log), Step(s, e);
      if SendsFull(s.c, e) && e.w.sendOk then s'.c.inv == e.w.scan.value.inv == Replica(s'.log)
      else if PublishesDelta(s.c, e) && e.w.sendOk then
        && s'.c.inv == Recorded(s.c, e.listing.value).inv
        && Replica(s'.log) == Received(r, DeltaMessage(s.c, e.w.asset, e.listing.value))
      else s'.c.inv == s.c.inv && Replica(s'.log) == r
  {
    if e.Reconnected? {
      ReplicaGrows(s.log, WasReset);
    } else {
      RefreshShape(s.c, e);
      RaceChangesNoInventory(s.log, Refresh(s.c, e), e.w.sendOk, e.race);
    }
  }

  /** A delta brings the receiver to the new record exactly when nothing changed silently. */
  lemma DeltaSent(c: Collector, asset: string, l: Listing)
    requires ByNameAscending(c.inv.compose) && ByNameAscending(l.compose)
    ensures Received(c.inv, DeltaMessage(c, asset, l)) == Recorded(c, l).inv
      <==> NoSilentChange(c.inv.containers, l.containers)
  {
    DeltaReachesNext(c.inv.containers, l.containers);
    ComposeEqualExactly(c.inv.compose, l.compose);
  }

  lemma NotBoth(c: Collector, e: Event)
    ensures !(SendsFull(c, e) && PublishesDelta(c, e))
  {
  }

  lemma StepSorted(s: World, e: Event)
    requires Sorted(s) && Sound(e)
    ensures Sorted(Step(s, e))
  {
    StepInventory(s, e);
  }

  /** From agreement, one step keeps it exactly when the step does not lose a change. */
  lemma StepAgrees(s: World, e: Event)
    requires Agrees(s) && Sorted(s) && Sound(e)
    ensures Agrees(Step(s, e)) <==> !Loses(s.c, e)
  {
    StepInventory(s, e);
    NotBoth(s.c, e);
    if PublishesDelta(s.c, e) {
      DeltaSent(s.c, e.w.asset, e.listing.value);
    }
  }

  ghost predicate AlwaysAgrees(es: seq<Event>)
    decreases |es|
  {
    Agrees(Run(Initially, es)) && (es != [] ==> AlwaysAgrees(Front(es)))
  }

  ghost predicate NeverLoses(es: seq<Event>)
    decreases |es|
  {
    es != [] ==> !Loses(Run(Initially, Front(es)).c, Last(es)) && NeverLoses(Front(es))
  }

  lemma {:induction false} RunSorted(es: seq<Event>)
    requires AllSound(es)
    ensures Sorted(Run(Initially, es))
    decreases |es|
  {
    if es != [] {
      RunSorted(Front(es));
      StepSorted(Run(Initially, Front(es)), Last(es));
    }
  }

  /** Folding the delivered messages into an empty replica gives the agent's record after
      every prefix of a run, exactly when no delta of the run missed a lost empty label. */
  lemma {:induction false} ReplicaFollowsRecord(es: seq<Event>)
    requires AllSound(es)
    ensures AlwaysAgrees(es) <==> NeverLoses(es)
    decreases |es|
  {
    if es != [] {
      ReplicaFollowsRecord(Front(es));
      RunSorted(Front(es));
      if AlwaysAgrees(Front(es)) {
        StepAgrees(Run(Initially, Front(es)), Last(es));
      }
    }
  }

  // ----------------------------------------------------------- the record is fresh

  /** A recorded inventory against what Docker reported: everything right, but for containers
      that changed silently. */
  ghost predicate Fresh(inv: Inventory, seen: Inventory) {
    inv.rest == seen.rest && inv.compose == seen.compose && SameButSilent(inv.containers, seen.containers)
  }

  lemma FreshSelf(inv: Inventory)
    ensures Fresh(inv, inv)
  {
  }

  /** After a full refresh that is connected, scans and can send, forced or not, the record
      shows what the scan found. The running set follows the scan even when the send fails. */
  lemma FullStepFresh(s: World, e: Event)
    requires Sorted(s) && Sound(e) && e.FullDue? && e.w.connected && e.w.scan.Some?
    ensures e.w.sendOk ==> Fresh(Step(s, e).c.inv, e.w.scan.value.inv)
    ensures Step(s, e).c.running == e.w.scan.value.running
  {
    StepInventory(s, e);
    FreshSelf(e.w.scan.value.inv);
    InventoryEqualExactly(s.c.inv, e.w.scan.value.inv);
  }

  lemma {:induction false} NoChanges(prev: map<string, Container>, next: map<string, Container>)
    requires Changes(prev, next) == 0
    ensures SameButSilent(prev, next)
  {
    assert Upserts(prev, next) == map[] && Removals(prev, next) == {};
    forall id | id in next
      ensures id in prev && (prev[id] == next[id] || Silent(prev[id], next[id]))
    {
      assert id !in Upserts(prev, next);
      ContainerEqualExactly(prev[id], next[id]);
    }
    assert forall id :: id in prev ==> id !in Removals(prev, next);
  }

  /** After a delta refresh that compares, does not fall back and can send, the record shows
      what the listing found, and everything else as before. */
  lemma DeltaStepFresh(s: World, e: Event)
    requires Sorted(s) && Sound(e) && e.DeltaDue? && Compares(s.c, e.connected, e.w.asset) && e.listing.Some?
    requires !TurnsFull(s.c, e.connected, e.listing, e.w, false)
    ensures var l, seen := e.listing.value, s.c.inv.(containers := e.listing.value.containers, compose := e.listing.value.compose);
      (e.w.sendOk ==> Fresh(Step(s, e).c.inv, seen)) && Step(s, e).c.running == l.running
  {
    var l := e.listing.value;
    StepInventory(s, e);
    NotBoth(s.c, e);
    DeltaRunning(s.c, e);
    FreshSelf(Recorded(s.c, l).inv);
    ComposeEqualExactly(s.c.inv.compose, l.compose);
    if NothingChanged(s.c, l) {
      NoChanges(s.c.inv.containers, l.containers);
    }
  }

  lemma DeltaRunning(c: Collector, e: Event)
    requires e.DeltaDue? && Compares(c, e.connected, e.w.asset) && e.listing.Some?
    requires !TurnsFull(c, e.connected, e.listing, e.w, false)
    ensures Refresh(c, e).next.running == e.listing.value.running
  {
  }

  /** When it does hand over to a full refresh, the record shows what the scan found. */
  lemma TurnedStepFresh(s: World, e: Event, force: bool)
    requires Sorted(s) && Sound(e) && e.DeltaDue? && TurnsFull(s.c, e.connected, e.listing, e.w, force)
    requires e.w.connected && e.w.scan.Some? && e.w.sendOk
    ensures Fresh(Step(s, e).c.inv, e.w.scan.value.inv)
  {
    StepInventory(s, e);
    FreshSelf(e.w.scan.value.inv);
    InventoryEqualExactly(s.c.inv, e.w.scan.value.inv);
  }

  /** A refresh that can scan publishes in full whenever it is forced, nothing was published
      since the last reset, or the host's asset ID has changed; and it names the new ID. */
  lemma PublishesWhenDue(c: Collector, e: Event)
    requires !e.Reconnected? && e.w.connected && e.w.scan.Some? && (e.DeltaDue? ==> e.connected)
    requires (e.FullDue? && e.force) || !c.published || (c.last != "" && c.last != e.w.asset)
    ensures Refresh(c, e).tried == Some(Full(e.w.asset, e.w.scan.value.inv))
  {
  }

  /** With nothing new, an unforced refresh sends nothing. */
  lemma QuietWhenNothingNew(c: Collector, w: Meets)
    requires c.published && (c.last == "" || c.last == w.asset) && w.scan.Some?
    requires ByNameAscending(c.inv.compose) && w.scan.value.inv == c.inv
    ensures FullRefresh(c, w, false).tried.None?
  {
    FreshSelf(c.inv);
    InventoryEqualExactly(c.inv, c.inv);
  }

  /** Over every run: the record is as fresh as the last refresh that could see and send. */
  lemma RecordIsFresh(es: seq<Event>, e: Event)
    requires AllSound(es) && Sound(e) && !e.Reconnected? && e.w.sendOk
    ensures var s := Run(Initially, es);
      var seen := e.w.scan;
      && (e.FullDue? && e.w.connected && seen.Some? ==> Fresh(Step(s, e).c.inv, seen.value.inv))
      && (e.DeltaDue? && e.connected && e.w.connected && seen.Some? && e.listing.Some? ==>
            || Fresh(Step(s, e).c.inv, seen.value.inv)
            || Fresh(Step(s, e).c.inv, s.c.inv.(containers := e.listing.value.containers, compose := e.listing.value.compose)))
  {
    RunSorted(es);
    var s := Run(Initially, es);
    if e.FullDue? && e.w.connected && e.w.scan.Some? {
      FullStepFresh(s, e);
    } else if e.DeltaDue? && e.connected && e.w.connected && e.w.scan.Some? && e.listing.Some? {
      if TurnsFull(s.c, e.connected, e.listing, e.w, true) {
        TurnedStepFresh(s, e, true);
      } else if TurnsFull(s.c, e.connected, e.listing, e.w, false) {
        TurnedStepFresh(s, e, false);
      } else {
        DeltaStepFresh(s, e);
      }
    }
  }

  // --------------------------------------------------------------- after a lost change

  /** A delivered full snapshot restores agreement, whatever came before it. */
  lemma FullRestores(s: World, e: Event)
    requires SendsFull(s.c, e) && e.w.sendOk
    ensures Agrees(Step(s, e))
  {
    StepInventory(s, e);
  }

  /** From agreement, a delivered delta leaves the receiver with the right containers except,
      exactly, those that changed silently. */
  lemma DeltaDifference(s: World, e: Event, id: string)
    requires Agrees(s) && PublishesDelta(s.c, e) && e.w.sendOk
    ensures var s', prev, next := Step(s, e), s.c.inv.containers, e.listing.value.containers;
      var r := Replica(s'.log).containers;
      && s'.c.inv.containers == next && (id in r <==> id in next)
      && (id in next ==> (r[id] != next[id] <==> id in prev && Silent(prev[id], next[id])))
  {
    StepInventory(s, e);
    NotBoth(s.c, e);
    DeltaAt(s.c.inv.containers, e.listing.value.containers, id);
  }

  /** As much as a receiver can be wrong about a container: its number of labels is right,
      and so is every label it has with a value. */
  ghost predicate Near(a: Container, b: Container) {
    && a.facts == b.facts && |a.labels| == |b.labels|
    && forall key :: key in a.labels && a.labels[key] != "" ==> key in b.labels && b.labels[key] == a.labels[key]
  }

  ghost predicate AllNear(r: map<string, Container>, cs: map<string, Container>) {
    r.Keys == cs.Keys && forall id :: id in cs ==> Near(r[id], cs[id])
  }

  ghost predicate Close(r: Inventory, inv: Inventory) {
    r.rest == inv.rest && r.compose == inv.compose && AllNear(r.containers, inv.containers)
  }

  lemma NearStays(a: Container, b: Container, c: Container)
    requires Near(a, b) && ContainerEqual(b, c)
    ensures Near(a, c)
  {
    forall key | key in a.labels && a.labels[key] != ""
      ensures key in c.labels && c.labels[key] == a.labels[key]
    {
      assert Label(c.labels, key) == b.labels[key];
    }
  }

  lemma DeltaAllNear(r: map<string, Container>, prev: map<string, Container>, next: map<string, Container>)
    requires AllNear(r, prev)
    ensures AllNear(ApplyDelta(r, Upserts(prev, next), Removals(prev, next)), next)
  {
    var cs := ApplyDelta(r, Upserts(prev, next), Removals(prev, next));
    assert cs.Keys == next.Keys;
    forall id | id in next
      ensures Near(cs[id], next[id])
    {
      if !Changed(prev, next, id) {
        NearStays(r[id], prev[id], next[id]);
      }
    }
  }

  lemma DeltaClose(r: Inventory, c: Collector, asset: string, l: Listing)
    requires Close(r, c.inv) && ByNameAscending(c.inv.compose) && ByNameAscending(l.compose)
    ensures Close(Received(r, DeltaMessage(c, asset, l)), Recorded(c, l).inv)
  {
    DeltaAllNear(r.containers, c.inv.containers, l.containers);
    ComposeEqualExactly(c.inv.compose, l.compose);
  }

  lemma CloseToItself(inv: Inventory)
    ensures Close(inv, inv)
  {
  }

  lemma StepClose(s: World, e: Event)
    requires Close(Replica(s.log), s.c.inv) && Sorted(s) && Sound(e)
    ensures Close(Replica(Step(s, e).log), Step(s, e).c.inv)
  {
    StepInventory(s, e);
    NotBoth(s.c, e);
    CloseToItself(Step(s, e).c.inv);
    if PublishesDelta(s.c, e) {
      DeltaClose(Replica(s.log), s.c, e.w.asset, e.listing.value);
    }
  }

  /** In every run, lost changes included, the receiver has the right engine, images,
      networks, volumes and stacks, exactly the recorded containers, and of each container
      everything right but labels: only empty ones, and ones that replaced those, may differ. */
  lemma {:induction false} OnlyLabelsDiffer(es: seq<Event>)
    requires AllSound(es)
    ensures var s := Run(Initially, es); Close(Replica(s.log), s.c.inv)
    decreases |es|
  {
    if es != [] {
      OnlyLabelsDiffer(Front(es));
      RunSorted(Front(es));
      StepClose(Run(Initially, Front(es)), Last(es));
    }
  }

  // ------------------------------------------------------------- labels with values

  predicate LabelsFilled(cs: map<string, Container>) {
    forall id :: id in cs ==> Filled(cs[id])
  }

  predicate Filled(c: Container) {
    forall key :: key in c.labels ==> c.labels[key] != ""
  }

  ghost predicate EventFilled(e: Event) {
    && (!e.Reconnected? && e.w.scan.Some? ==> LabelsFilled(e.w.scan.value.inv.containers))
    && (e.DeltaDue? && e.listing.Some? ==> LabelsFilled(e.listing.value.containers))
  }

  lemma StepFilled(s: World, e: Event)
    requires EventFilled(e) && LabelsFilled(s.c.inv.containers)
    ensures LabelsFilled(Step(s, e).c.inv.containers)
  {
    StepInventory(s, e);
  }

  lemma FilledNeverSilent(prev: map<string, Container>, next: map<string, Container>)
    requires LabelsFilled(prev)
    ensures NoSilentChange(prev, next)
  {
  }

  lemma {:induction false} FilledNeverLoses(es: seq<Event>)
    requires forall i :: 0 <= i < |es| ==> EventFilled(es[i])
    ensures NeverLoses(es) && LabelsFilled(Run(Initially, es).c.inv.containers)
    decreases |es|
  {
    if es != [] {
      FilledNeverLoses(Front(es));
      var s := Run(Initially, Front(es));
      StepFilled(s, Last(es));
      if Last(es).DeltaDue? && Last(es).listing.Some? {
        FilledNeverSilent(s.c.inv.containers, Last(es).listing.value.containers);
      }
    }
  }

  /** With no empty label value anywhere, replica and record agree after every run. */
  lemma FilledLabelsAgree(es: seq<Event>)
    requires AllSound(es) && forall i :: 0 <= i < |es| ==> EventFilled(es[i])
    ensures AlwaysAgrees(es)
  {
    FilledNeverLoses(es);
    ReplicaFollowsRecord(es);
  }

  lemma OneRun(e: Event)
    ensures Run(Initially, [e]) == Step(Initially, e)
  {
    assert Front([e]) == [] && Last([e]) == e;
    assert Run(Initially, Front([e])) == Initially;
  }

  /** A run that does lose a change: the label x="" gives way to y="v" while a stack appears. */
  lemma LostLabelRun(f: Facts, d: Detail)
    ensures var a, b := Container(f, map["x" := ""]), Container(f, map["y" := "v"]);
      var w := Meets("host", true, Some(Scan(NoInventory.(containers := map["c" := a]), {})), true);
      var es := [FullDue(w, true, Alone), DeltaDue(true, Some(Listing(map["c" := b], [Stack("p", d)], {})), w, Alone)];
      AllSound(es) && !AlwaysAgrees(es)
  {
    var a, b := Container(f, map["x" := ""]), Container(f, map["y" := "v"]);
    var w := Meets("host", true, Some(Scan(NoInventory.(containers := map["c" := a]), {})), true);
    var l := Listing(map["c" := b], [Stack("p", d)], {});
    var es := [FullDue(w, true, Alone), DeltaDue(true, Some(l), w, Alone)];
    OneRun(es[0]);
    assert Front(es) == [es[0]];
    var c := Step(Initially, es[0]).c;
    assert c == Collector(NoInventory.(containers := map["c" := a]), true, "host", {});
    EmptyLabelCounterexample(f);
    ContainerEqualExactly(a, b);
    UnseenChange(c, l, a, b);
    assert "c" in c.inv.containers && "c" in l.containers;
    assert Loses(c, es[1]);
    ReplicaFollowsRecord(es);
  }

  lemma UnseenChange(c: Collector, l: Listing, a: Container, b: Container)
    requires c.inv.containers == map["c" := a] && l.containers == map["c" := b] && ContainerEqual(a, b)
    requires c.inv.compose == [] && |l.compose| == 1
    ensures Changes(c.inv.containers, l.containers) == 0 && ComposeChanged(c, l)
    ensures !FallsBack(0, |c.inv.containers|, true)
  {
    assert Upserts(c.inv.containers, l.containers) == map[];
    assert Removals(c.inv.containers, l.containers) == {};
  }
}
