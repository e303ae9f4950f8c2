/** Docker stats sampling: the sorted index of running containers, the rotating selection of at
    most 24 due containers a tick, and the adaptive sampling intervals. */
module DockerStats {
  import opened Text

  // ------------------------------------------------------------------- running index

  /** The index a set of running containers should have. */
  ghost predicate Indexes(ids: seq<string>, running: set<string>) {
    Ascending(ids) && forall id :: id in ids <==> id in running
  }

  lemma AscendingDistinct(ids: seq<string>)
    requires Ascending(ids)
    ensures Distinct(ids)
  {
    forall i, j | 0 <= i < j < |ids|
      ensures ids[i] != ids[j]
    {
      LessIrreflexive(ids[i]);
    }
  }

  class RunningContainers {
    var ids: seq<string>
    var running: set<string>
    var hash: string

    ghost predicate Valid()
      reads this
    {
      Indexes(ids, running) && hash == Join(ids, ',')
    }

    constructor ()
      ensures Valid() && running == {} && ids == []
    {
      ids, running, hash := [], {}, "";
    }

    /** setRunningContainersLocked. */
    method SetRunning(now: set<string>)
      requires Valid()
      modifies this
      ensures Valid() && running == now && hash == Join(ids, ',')
      ensures now == old(running) ==> ids == old(ids)
    {
      if |now| == |running| {
        var same := Contained(now, running);
        if same {
          SubsetSameSize(now, running);
          return;
        }
      }
      var listed := Listed(now);
      SortStringsSorts(listed);
      ids := SortStrings(listed);
      running := now;
      hash := Join(ids, ',');
    }
  }

  method Contained(now: set<string>, known: set<string>) returns (r: bool)
    ensures r <==> now <= known
  {
    var todo := now;
    while todo != {}
      invariant todo <= now && now - todo <= known
      decreases |todo|
    {
      var id :| id in todo;
      if id !in known {
        return false;
      }
      todo := todo - {id};
    }
    return true;
  }

  /** A set's elements in the order an iteration meets them. */
  method Listed(now: set<string>) returns (ids: seq<string>)
    ensures Distinct(ids) && forall id :: id in ids <==> id in now
  {
    ids := [];
    var todo := now;
    while todo != {}
      invariant todo <= now
      invariant Distinct(ids)
      invariant forall id :: id in ids <==> id in now && id !in todo
      decreases |todo|
    {
      var id :| id in todo;
      ids := ids + [id];
      todo := todo - {id};
    }
  }

  /** For container IDs (not empty, no comma) equal hashes mean equal indexes. */
  lemma HashIdentifies(a: seq<string>, b: seq<string>)
    requires AllFree(a, ',') && AllFree(b, ',') && "" !in a && "" !in b
    ensures Join(a, ',') == Join(b, ',') <==> a == b
  {
    if a != [] {
      SplitJoin(a, ',');
    }
    if b != [] {
      SplitJoin(b, ',');
    }
    assert Split("", ',') == [""];
    assert "" in [""];
  }

  // ---------------------------------------------------------------------- intervals

  const Second := 1_000_000_000
  const Minute := 60 * Second

  datatype Reading = Reading(cpu: real, memory: real, pids: int)
  datatype Sample = Failed(at: int) | Read(at: int, reading: Reading)

  predicate Hot(r: Reading) {
    r.cpu >= 25.0 || r.memory >= 70.0 || r.pids >= 150
  }

  /** A discovery interval, which the constructor keeps positive. */
  type Period = i: int | i > 0 witness 1

  function DefaultInterval(base: Period): int {
    if base < 5 * Second then 5 * Second else base
  }

  function MinInterval(base: Period): int {
    var half := if base / 2 < 10 * Second then 10 * Second else base / 2;
    var capped := if half > base then base else half;
    if capped < 5 * Second then 5 * Second else capped
  }

  function MaxInterval(base: Period): int {
    var six := if base * 6 < 2 * Minute then 2 * Minute else base * 6;
    if six > 10 * Minute then 10 * Minute else six
  }

  function NextInterval(base: Period, current: int, s: Sample): int {
    var from := if current <= 0 then DefaultInterval(base) else current;
    if s.Failed? then (if from * 2 > MaxInterval(base) then MaxInterval(base) else from * 2)
    else if Hot(s.reading) then (if from / 2 < MinInterval(base) then MinInterval(base) else from / 2)
    else if from + from / 2 > MaxInterval(base) then MaxInterval(base) else from + from / 2
  }

  predicate Within(base: Period, interval: int) {
    MinInterval(base) <= interval <= MaxInterval(base)
  }

  /** The bounds are in order up to a discovery interval of 20 minutes (and, as halving
      drops a nanosecond, one nanosecond more). */
  lemma BoundsInOrder(base: Period)
    ensures MinInterval(base) <= MaxInterval(base) <==> base <= 20 * Minute + 1
  {
  }

  lemma DefaultWithin(base: Period)
    ensures Within(base, DefaultInterval(base)) <==> base <= 10 * Minute
  {
  }

  lemma NextWithin(base: Period, current: int, s: Sample)
    requires base <= 10 * Minute && Within(base, current)
    ensures Within(base, NextInterval(base, current, s))
  {
  }

  /** The bounds for each range of the discovery interval. */
  lemma BoundsInFull(base: Period)
    ensures MinInterval(base) ==
      if base <= 5 * Second then 5 * Second else if base <= 10 * Second then base
      else if base < 20 * Second then 10 * Second else base / 2
    ensures MaxInterval(base) ==
      if base <= 20 * Second then 120 * Second else if base <= 100 * Second then 6 * base else 600 * Second
  {
  }

  /** A busy container (25 % CPU, 70 % memory or 150 processes) is never sampled less often
      for it, and any other reading or a failure never makes it more often. */
  lemma ReadingsSteer(base: Period, current: int, s: Sample)
    requires base <= 10 * Minute && Within(base, current)
    ensures var busy := s.Read? && (s.reading.cpu >= 25.0 || s.reading.memory >= 70.0 || s.reading.pids >= 150);
      && (busy ==> NextInterval(base, current, s) <= current)
      && (!busy ==> NextInterval(base, current, s) >= current)
      && (busy && current > MinInterval(base) ==> NextInterval(base, current, s) < current)
      && (!busy && current < MaxInterval(base) ==> NextInterval(base, current, s) > current)
  {
  }

  /** One sample's result again and again. */
  function Repeated(base: Period, current: int, s: Sample, k: nat): int {
    if k == 0 then current else NextInterval(base, Repeated(base, current, s, k - 1), s)
  }

  function Pow2(k: nat): nat {
    if k == 0 then 1 else 2 * Pow2(k - 1)
  }

  predicate Busy(s: Sample) {
    s.Read? && Hot(s.reading)
  }

  lemma {:induction false} RepeatedWithin(base: Period, current: int, s: Sample, k: nat)
    requires base <= 10 * Minute && Within(base, current)
    ensures Within(base, Repeated(base, current, s, k))
  {
    if k > 0 {
      RepeatedWithin(base, current, s, k - 1);
      NextWithin(base, Repeated(base, current, s, k - 1), s);
    }
  }

  lemma {:induction false} HotHalves(base: Period, current: int, s: Sample, k: nat)
    requires base <= 10 * Minute && Within(base, current) && Busy(s)
    ensures var r := Repeated(base, current, s, k); r == MinInterval(base) || r * Pow2(k) <= current
  {
    if k > 0 {
      HotHalves(base, current, s, k - 1);
      RepeatedWithin(base, current, s, k - 1);
      var r := Repeated(base, current, s, k - 1);
      HalfTimes(r, Pow2(k - 1));
    }
  }

  lemma HalfTimes(r: int, p: nat)
    ensures r / 2 * (2 * p) <= r * p
  {
    assert r / 2 * (2 * p) == (r / 2 * 2) * p;
    assert r / 2 * 2 <= r;
  }

  function Doubled(x: int, k: nat): int {
    if k == 0 then x else 2 * Doubled(x, k - 1)
  }

  lemma SevenTimes(x: int)
    ensures Doubled(x, 7) == 128 * x
  {
    assert Doubled(x, 1) == 2 * x;
    assert Doubled(x, 3) == 8 * x;
    assert Doubled(x, 5) == 32 * x;
  }

  lemma {:induction false} FailedDoubles(base: Period, current: int, s: Sample, k: nat)
    requires base <= 10 * Minute && Within(base, current) && s.Failed?
    ensures var r := Repeated(base, current, s, k); r == MaxInterval(base) || r == Doubled(current, k)
  {
    if k > 0 {
      FailedDoubles(base, current, s, k - 1);
      RepeatedWithin(base, current, s, k - 1);
    }
  }

  /** Five seconds grown by half, k times. */
  function Grown(k: nat): int {
    if k == 0 then 5 * Second else Grown(k - 1) + Grown(k - 1) / 2
  }

  lemma {:induction false} IdleGrows(base: Period, current: int, s: Sample, k: nat)
    requires base <= 10 * Minute && Within(base, current) && s.Read? && !Hot(s.reading)
    ensures var r := Repeated(base, current, s, k); r == MaxInterval(base) || r >= Grown(k)
  {
    if k > 0 {
      IdleGrows(base, current, s, k - 1);
      RepeatedWithin(base, current, s, k - 1);
    } else {
      BoundsInFull(base);
    }
  }

  lemma GrownTwelve()
    ensures Grown(12) >= 600 * Second
  {
    assert Grown(3) == 16_875_000_000;
    assert Grown(6) >= 56_953_124_990;
    assert Grown(9) >= 192_216_000_000;
  }

  /** From anywhere within the bounds, seven busy readings in a row reach the minimum, seven
      failures the maximum, and twelve idle readings the maximum. */
  lemma BoundsAreReached(base: Period, current: int, s: Sample)
    requires base <= 10 * Minute && Within(base, current)
    ensures Busy(s) ==> Repeated(base, current, s, 7) == MinInterval(base)
    ensures s.Failed? ==> Repeated(base, current, s, 7) == MaxInterval(base)
    ensures s.Read? && !Hot(s.reading) ==> Repeated(base, current, s, 12) == MaxInterval(base)
  {
    BoundsInFull(base);
    assert Pow2(7) == 128;
    SevenTimes(current);
    RepeatedWithin(base, current, s, 7);
    RepeatedWithin(base, current, s, 12);
    if Busy(s) {
      HotHalves(base, current, s, 7);
    } else if s.Failed? {
      FailedDoubles(base, current, s, 7);
    } else {
      IdleGrows(base, current, s, 12);
      GrownTwelve();
    }
  }

  function AfterSamples(base: Period, ss: seq<Sample>): int {
    if ss == [] then DefaultInterval(base) else NextInterval(base, AfterSamples(base, Front(ss)), Last(ss))
  }

  lemma {:induction false} SamplesStayWithin(base: Period, ss: seq<Sample>)
    requires base <= 10 * Minute
    ensures Within(base, AfterSamples(base, ss))
  {
    if ss == [] {
      DefaultWithin(base);
    } else {
      SamplesStayWithin(base, Front(ss));
      NextWithin(base, AfterSamples(base, Front(ss)), Last(ss));
    }
  }

  /** Every interval a container can ever have lies between the bounds exactly for discovery
      intervals of at most 10 minutes. */
  lemma IntervalsStayWithin(base: Period)
    ensures (forall ss :: Within(base, AfterSamples(base, ss))) <==> base <= 10 * Minute
  {
    if base <= 10 * Minute {
      forall ss
        ensures Within(base, AfterSamples(base, ss))
      {
        SamplesStayWithin(base, ss);
      }
    } else {
      DefaultWithin(base);
      assert !Within(base, AfterSamples(base, []));
    }
  }

  // ----------------------------------------------------------------- due selection

  const PerTick: nat := 24

  datatype Schedule = Schedule(interval: int, next: int)

  function Synced(base: Period, schedule: map<string, Schedule>, ids: seq<string>, now: int): map<string, Schedule> {
    map id | id in ids :: if id in schedule then schedule[id] else Schedule(DefaultInterval(base), now)
  }

  predicate IsDue(schedule: map<string, Schedule>, now: int, id: string) {
    id in schedule && now >= schedule[id].next
  }

  /** Where a tick starts looking: just after the last container it scheduled. */
  function Start(ids: seq<string>, cursor: string): (k: nat)
    ensures k <= |ids|
  {
    var k := Search(ids, cursor);
    if k < |ids| && ids[k] == cursor then k + 1 else k
  }

  function Rotated(ids: seq<string>, start: nat): seq<string>
    requires start <= |ids|
  {
    ids[start..] + ids[..start]
  }

  /** The first due containers in a given order, up to a limit. */
  function Select(order: seq<string>, schedule: map<string, Schedule>, now: int, limit: nat): seq<string> {
    if order == [] || limit == 0 then []
    else if IsDue(schedule, now, order[0]) then [order[0]] + Select(order[1..], schedule, now, limit - 1)
    else Select(order[1..], schedule, now, limit)
  }

  function Chosen(ids: seq<string>, cursor: string, schedule: map<string, Schedule>, now: int): seq<string> {
    Select(Rotated(ids, Start(ids, cursor)), schedule, now, PerTick)
  }

  function Sampled(base: Period, e: Schedule, s: Sample): Schedule {
    var interval := NextInterval(base, e.interval, s);
    Schedule(interval, s.at + interval)
  }

  function Recorded(base: Period, schedule: map<string, Schedule>, due: seq<string>, samples: string -> Sample): map<string, Schedule> {
    map id | id in schedule :: if id in due then Sampled(base, schedule[id], samples(id)) else schedule[id]
  }

  datatype State = State(schedule: map<string, Schedule>, cursor: string)

  /** A tick's clock and what reading each container would give. */
  datatype Tick = Tick(now: int, samples: string -> Sample)

  function Due(base: Period, ids: seq<string>, s: State, now: int): seq<string> {
    Chosen(ids, s.cursor, Synced(base, s.schedule, ids, now), now)
  }

  function Step(base: Period, ids: seq<string>, s: State, t: Tick): State {
    var due := Due(base, ids, s, t.now);
    State(Recorded(base, Synced(base, s.schedule, ids, t.now), due, t.samples),
          if due == [] then s.cursor else Last(due))
  }

  // --------------------------------------------------------- the loops of one tick

  function Visited(ids: seq<string>, start: nat, offset: nat): string
    requires ids != []
  {
    ids[(start + offset) % |ids|]
  }

  /** The select loop's index arithmetic walks the rotated list. */
  lemma RotatedAt(ids: seq<string>, start: nat, offset: nat)
    requires start <= |ids| && offset < |ids|
    ensures Rotated(ids, start)[offset] == Visited(ids, start, offset)
  {
    ModOnce(start + offset, |ids|);
  }

  lemma ModOnce(x: nat, n: nat)
    requires n > 0 && x < 2 * n
    ensures x % n == (if x < n then x else x - n)
  {
  }

  lemma {:induction false} SelectSub(order: seq<string>, schedule: map<string, Schedule>, now: int, limit: nat)
    requires Distinct(order)
    ensures var r := Select(order, schedule, now, limit);
      Distinct(r) && |r| <= limit && forall id :: id in r ==> id in order && IsDue(schedule, now, id)
  {
    if order != [] && limit > 0 {
      SelectSub(order[1..], schedule, now, if IsDue(schedule, now, order[0]) then limit - 1 else limit);
      assert forall id :: id in order[1..] ==> id in order && id != order[0];
    }
  }

  /** What the select loop still picks from an offset on, having picked so many. */
  function Remaining(order: seq<string>, offset: nat, schedule: map<string, Schedule>, now: int, picked: nat): seq<string>
    requires offset <= |order| && picked <= PerTick
  {
    Select(order[offset..], schedule, now, PerTick - picked)
  }

  lemma RemainingEnds(order: seq<string>, offset: nat, schedule: map<string, Schedule>, now: int, picked: nat)
    requires offset <= |order| && picked <= PerTick
    ensures offset == |order| || picked == PerTick ==> Remaining(order, offset, schedule, now, picked) == []
    ensures Remaining(order, 0, schedule, now, 0) == Select(order, schedule, now, PerTick)
  {
    assert order[0..] == order;
  }

  /** One turn of the select loop, with what it has picked so far. */
  lemma SelectNext(order: seq<string>, schedule: map<string, Schedule>, now: int, offset: nat, due: seq<string>)
    requires offset < |order| && |due| < PerTick
    ensures var picked := if IsDue(schedule, now, order[offset]) then due + [order[offset]] else due;
      due + Remaining(order, offset, schedule, now, |due|) == picked + Remaining(order, offset + 1, schedule, now, |picked|)
  {
    assert order[offset..][1..] == order[offset + 1..];
    var rest := Select(order[offset + 1..], schedule, now, PerTick - |due| - 1);
    assert due + ([order[offset]] + rest) == (due + [order[offset]]) + rest;
  }

  lemma RotatedDistinct(ids: seq<string>, start: nat)
    requires Ascending(ids) && start <= |ids|
    ensures Distinct(Rotated(ids, start)) && forall id :: id in Rotated(ids, start) <==> id in ids
  {
    AscendingDistinct(ids);
    assert ids == ids[..start] + ids[start..];
  }

  method SelectDue(ids: seq<string>, cursor: string, schedule: map<string, Schedule>, now: int) returns (due: seq<string>)
    ensures due == Chosen(ids, cursor, schedule, now)
  {
    var start := Search(ids, cursor);
    if start < |ids| && ids[start] == cursor {
      start := start + 1;
    }
    ghost var order := Rotated(ids, start);
    forall offset | 0 <= offset < |ids|
      ensures order[offset] == Visited(ids, start, offset)
    {
      RotatedAt(ids, start, offset);
    }
    due := SelectFrom(ids, start, schedule, now, order);
  }

  /** The selection loop. */
  method SelectFrom(ids: seq<string>, start: nat, schedule: map<string, Schedule>, now: int, ghost order: seq<string>)
    returns (due: seq<string>)
    requires |order| == |ids| && forall i :: 0 <= i < |ids| ==> order[i] == Visited(ids, start, i)
    ensures due == Select(order, schedule, now, PerTick)
  {
    due := [];
    var offset := 0;
    RemainingEnds(order, 0, schedule, now, 0);
    ghost var all := Remaining(order, 0, schedule, now, 0);
    while offset < |ids| && |due| < PerTick
      invariant offset <= |ids| && |due| <= PerTick
      invariant due + Remaining(order, offset, schedule, now, |due|) == all
    {
      SelectNext(order, schedule, now, offset, due);
      var id := Visited(ids, start, offset);
      if IsDue(schedule, now, id) {
        due := due + [id];
      }
      offset := offset + 1;
    }
    RemainingEnds(order, offset, schedule, now, |due|);
  }

  class StatsScheduler {
    const base: Period
    var schedule: map<string, Schedule>
    var cursor: string

    constructor (base: Period)
      ensures this.base == base && schedule == map[] && cursor == ""
    {
      this.base := base;
      schedule, cursor := map[], "";
    }

    /** The part of collectAndSendStats that changes the schedule. */
    method CollectStats(ids: seq<string>, t: Tick) returns (due: seq<string>)
      requires Ascending(ids)
      modifies this
      ensures due == Due(base, ids, old(State(schedule, cursor)), t.now)
      ensures State(schedule, cursor) == Step(base, ids, old(State(schedule, cursor)), t)
    {
      Sync(ids, t.now);
      due := SelectDue(ids, cursor, schedule, t.now);
      RotatedDistinct(ids, Start(ids, cursor));
      SelectSub(Rotated(ids, Start(ids, cursor)), schedule, t.now, PerTick);
      if due != [] {
        cursor := Last(due);
      }
      SampleAll(due, t.samples);
    }

    /** Entries of stopped containers go, new containers are due at once. */
    method Sync(ids: seq<string>, now: int)
      modifies this`schedule
      ensures schedule == Synced(base, old(schedule), ids, now)
    {
      var kept := map id | id in schedule && id in ids :: schedule[id];
      var i := 0;
      while i < |ids|
        invariant i <= |ids|
        invariant forall id :: id in kept <==> id in ids[..i] || (id in ids && id in schedule)
        invariant forall id :: id in kept ==>
          kept[id] == if id in schedule then schedule[id] else Schedule(DefaultInterval(base), now)
      {
        if ids[i] !in kept {
          kept := kept[ids[i] := Schedule(DefaultInterval(base), now)];
        }
        i := i + 1;
      }
      assert kept.Keys == Synced(base, schedule, ids, now).Keys;
      schedule := kept;
    }

    method SampleAll(due: seq<string>, samples: string -> Sample)
      requires Distinct(due) && forall id :: id in due ==> id in schedule
      modifies this`schedule
      ensures schedule == Recorded(base, old(schedule), due, samples)
    {
      var i := 0;
      while i < |due|
        invariant i <= |due|
        invariant schedule.Keys == old(schedule).Keys
        invariant forall id :: id in schedule ==>
          schedule[id] == if id in due[..i] then Sampled(base, old(schedule)[id], samples(id)) else old(schedule)[id]
      {
        var id := due[i];
        assert id in due && id !in due[..i];
        schedule := schedule[id := Sampled(base, schedule[id], samples(id))];
        i := i + 1;
      }
      assert due[..i] == due;
    }
  }

  // ---------------------------------------------------------------- bounded waiting

  /** How many containers the next tick looks at before the i-th. */
  function Distance(ids: seq<string>, cursor: string, i: nat): nat
    requires i < |ids|
  {
    var start := Start(ids, cursor);
    if i >= start then i - start else i + |ids| - start
  }

  /** A due container that the selection skips has a full selection before it. */
  lemma {:induction false} SkippedMeansFull(order: seq<string>, schedule: map<string, Schedule>, now: int, limit: nat, d: nat)
    returns (e: nat)
    requires limit > 0 && d < |order| && IsDue(schedule, now, order[d])
    requires order[d] !in Select(order, schedule, now, limit)
    ensures limit - 1 <= e < d
    ensures Select(order, schedule, now, limit) != [] && Last(Select(order, schedule, now, limit)) == order[e]
  {
    var rest := order[1..];
    if IsDue(schedule, now, order[0]) {
      assert Select(order, schedule, now, limit)[0] == order[0];
      if limit == 1 {
        e := 0;
      } else {
        assert Select(order, schedule, now, limit)[1..] == Select(rest, schedule, now, limit - 1);
        e := SkippedMeansFull(rest, schedule, now, limit - 1, d - 1);
        e := e + 1;
      }
    } else {
      e := SkippedMeansFull(rest, schedule, now, limit, d - 1);
      e := e + 1;
    }
  }

  /** The cyclic distance falls by at least 24 in a tick that skips a due container. */
  lemma DistanceFalls(ids: seq<string>, cursor: string, schedule: map<string, Schedule>, now: int, i: nat)
    requires Ascending(ids) && i < |ids| && IsDue(schedule, now, ids[i])
    requires ids[i] !in Chosen(ids, cursor, schedule, now)
    ensures var due := Chosen(ids, cursor, schedule, now);
      due != [] && Distance(ids, Last(due), i) <= Distance(ids, cursor, i) - PerTick
  {
    var start, d := Start(ids, cursor), Distance(ids, cursor, i);
    assert Rotated(ids, start)[d] == ids[i];
    var e := SkippedMeansFull(Rotated(ids, start), schedule, now, PerTick, d);
    var j := if start + e < |ids| then start + e else start + e - |ids|;
    assert Rotated(ids, start)[e] == ids[j];
    SearchMember(ids, j);
    assert Start(ids, ids[j]) == j + 1;
  }

  /** Whether some tick of the run selects a container. */
  ghost predicate SelectedIn(base: Period, ids: seq<string>, s: State, ts: seq<Tick>, id: string)
    decreases |ts|
  {
    ts != [] && (id in Due(base, ids, s, ts[0].now) || SelectedIn(base, ids, Step(base, ids, s, ts[0]), ts[1..], id))
  }

  /** A container is due when its entry says so, or when it has none yet. */
  ghost predicate Awaits(s: State, now: int, id: string) {
    id in s.schedule ==> now >= s.schedule[id].next
  }

  lemma SkippedStaysDue(base: Period, ids: seq<string>, s: State, t: Tick, i: nat, later: int)
    requires Ascending(ids) && i < |ids| && Awaits(s, t.now, ids[i]) && ids[i] !in Due(base, ids, s, t.now)
    requires later >= t.now
    ensures Awaits(Step(base, ids, s, t), later, ids[i])
    ensures Distance(ids, Step(base, ids, s, t).cursor, i) <= Distance(ids, s.cursor, i) - PerTick
  {
    var m := Synced(base, s.schedule, ids, t.now);
    assert ids[i] in ids && ids[i] in m;
    DistanceFalls(ids, s.cursor, m, t.now, i);
  }

  lemma {:induction false} WaitsItsTurn(base: Period, ids: seq<string>, s: State, ts: seq<Tick>, i: nat)
    requires Ascending(ids) && i < |ids| && Distance(ids, s.cursor, i) < PerTick * |ts|
    requires forall a, b :: 0 <= a <= b < |ts| ==> ts[a].now <= ts[b].now
    requires Awaits(s, ts[0].now, ids[i])
    ensures SelectedIn(base, ids, s, ts, ids[i])
    decreases |ts|
  {
    if ids[i] !in Due(base, ids, s, ts[0].now) {
      SkippedStaysDue(base, ids, s, ts[0], i, if |ts| > 1 then ts[1].now else ts[0].now);
      WaitsItsTurn(base, ids, Step(base, ids, s, ts[0]), ts[1..], i);
    }
  }

  /** With a fixed index of n containers and a clock that does not go back, a container that
      is due is selected within the next ceil(n / 24) ticks, whatever the cursor, the other
      entries and the sampling results are. */
  lemma BoundedWaiting(base: Period, ids: seq<string>, s: State, ts: seq<Tick>, id: string)
    requires Ascending(ids) && id in ids && |ts| == (|ids| + PerTick - 1) / PerTick
    requires forall a, b :: 0 <= a <= b < |ts| ==> ts[a].now <= ts[b].now
    requires Awaits(s, ts[0].now, id)
    ensures SelectedIn(base, ids, s, ts, id)
  {
    var i :| 0 <= i < |ids| && ids[i] == id;
    WaitsItsTurn(base, ids, s, ts, i);
  }

  /** A selected container is due again exactly one interval after its sample, which is at
      least the minimum away; one that was not selected keeps its time. */
  lemma SelectedIsPostponed(base: Period, ids: seq<string>, s: State, t: Tick, id: string)
    requires base <= 10 * Minute && AllWithin(base, s) && id in ids
    ensures var s', due := Step(base, ids, s, t), Due(base, ids, s, t.now);
      && id in s'.schedule
      && (id in due ==>
            && s'.schedule[id].next == t.samples(id).at + s'.schedule[id].interval
            && s'.schedule[id].next >= t.samples(id).at + MinInterval(base))
      && (id !in due && id in s.schedule ==> s'.schedule[id] == s.schedule[id])
      && (id !in due && id !in s.schedule ==> s'.schedule[id] == Schedule(DefaultInterval(base), t.now))
  {
    StepKeepsWithin(base, ids, s, t);
  }

  /** Containers that stopped lose their entry. */
  lemma StoppedIsDropped(base: Period, ids: seq<string>, s: State, t: Tick, id: string)
    requires id !in ids
    ensures id !in Step(base, ids, s, t).schedule
  {
  }

  // -------------------------------------------------- intervals of reachable states

  ghost predicate AllWithin(base: Period, s: State) {
    forall id :: id in s.schedule ==> Within(base, s.schedule[id].interval)
  }

  /** Every tick keeps every entry's interval between the bounds. */
  lemma StepKeepsWithin(base: Period, ids: seq<string>, s: State, t: Tick)
    requires base <= 10 * Minute && AllWithin(base, s)
    ensures AllWithin(base, Step(base, ids, s, t))
  {
    DefaultWithin(base);
    var m := Synced(base, s.schedule, ids, t.now);
    forall id | id in m
      ensures Within(base, Step(base, ids, s, t).schedule[id].interval)
    {
      NextWithin(base, m[id].interval, t.samples(id));
    }
  }

  datatype Turn = Turn(ids: seq<string>, tick: Tick)

  function Run(base: Period, ts: seq<Turn>): State
    decreases |ts|
  {
    if ts == [] then State(map[], "") else Step(base, Last(ts).ids, Run(base, Front(ts)), Last(ts).tick)
  }

  /** Over every run, with any changes of the running set and any sampling results. */
  lemma {:induction false} RunKeepsWithin(base: Period, ts: seq<Turn>)
    requires base <= 10 * Minute
    ensures AllWithin(base, Run(base, ts))
    decreases |ts|
  {
    if ts != [] {
      RunKeepsWithin(base, Front(ts));
      StepKeepsWithin(base, Last(ts).ids, Run(base, Front(ts)), Last(ts).tick);
    }
  }
}
