/** Whether deltas stand on a full snapshot: what ResetPublishedState promises after a
    reconnect, with resets that may fall into the middle of a refresh. */
module DockerStanding {
  import opened Text
  import opened DockerInventory
  import opened DockerReplication

  /** The host of the last full snapshot delivered since the last reset. */
  function Standing(log: seq<Entry>): Option<string>
    decreases |log|
  {
    if log == [] || Last(log).WasReset? then None
    else if Last(log).ok && Last(log).m.Full? then Some(Last(log).m.host)
    else Standing(Front(log))
  }

  /** A delta for a host has a snapshot under it: of that host, or one that went out before
      the host had a name. */
  predicate Supports(standing: Option<string>, host: string) {
    standing.Some? && (standing.value == "" || standing.value == host)
  }

  predicate Supported(standing: Option<string>, tried: Option<Message>) {
    tried.Some? && tried.value.Delta? ==> Supports(standing, tried.value.host)
  }

  /** No delta was ever tried after a reset before a full snapshot was delivered. */
  ghost predicate DeltasStand(log: seq<Entry>)
    decreases |log|
  {
    log != [] ==>
      && DeltasStand(Front(log))
      && (Last(log).Sent? ==> Supported(Standing(Front(log)), Some(Last(log).m)))
  }

  // --------------------------------------------------------------------- the log grows

  lemma LogGrows(log: seq<Entry>, x: Entry)
    ensures Standing(log + [x]) ==
      if x.WasReset? then None else if x.ok && x.m.Full? then Some(x.m.host) else Standing(log)
    ensures DeltasStand(log + [x]) <==> DeltasStand(log) && (x.Sent? ==> Supported(Standing(log), Some(x.m)))
  {
    assert Front(log + [x]) == log;
  }

  function StandingAfter(standing: Option<string>, tried: Option<Message>, ok: bool): Option<string> {
    if tried.Some? && tried.value.Full? && ok then Some(tried.value.host) else standing
  }

  lemma AttemptGrows(log: seq<Entry>, tried: Option<Message>, ok: bool)
    ensures Standing(log + Attempt(tried, ok)) == StandingAfter(Standing(log), tried, ok)
    ensures DeltasStand(log + Attempt(tried, ok)) <==> DeltasStand(log) && Supported(Standing(log), tried)
  {
    if tried.Some? {
      LogGrows(log, Sent(tried.value, ok));
    } else {
      assert log + [] == log;
    }
  }

  lemma RacedGrows(log: seq<Entry>, tried: Option<Message>, ok: bool, race: Race)
    ensures Standing(RacedLog(log, tried, ok, race)) ==
      if race.AfterSend? then None
      else StandingAfter(if race.BeforeSend? then None else Standing(log), tried, ok)
    ensures DeltasStand(RacedLog(log, tried, ok, race)) <==>
      DeltasStand(log) && Supported(if race.BeforeSend? then None else Standing(log), tried)
  {
    AttemptGrows(log, tried, ok);
    LogGrows(log, WasReset);
    AttemptGrows(log + [WasReset], tried, ok);
    LogGrows(log + Attempt(tried, ok), WasReset);
  }

  // ------------------------------------------------------------- resets that got lost

  /** Whether, after this event, the recording of a delivered snapshot has overwritten a
      reset that no later reset or snapshot has made up for. */
  predicate NextOverwritten(c: Collector, e: Event, overwritten: bool) {
    if e.Reconnected? then false
    else if SendsFull(c, e) && e.w.sendOk then e.race.AfterSend?
    else e.race.Alone? && overwritten
  }

  ghost predicate Overwritten(es: seq<Event>)
    decreases |es|
  {
    es != [] && NextOverwritten(Run(Initially, Front(es)).c, Last(es), Overwritten(Front(es)))
  }

  /** The flag and the host say which snapshot stands, unless a reset was overwritten. */
  ghost predicate Tracked(s: World, overwritten: bool) {
    && Standing(s.log) == (if s.c.published && !overwritten then Some(s.c.last) else None)
    && (overwritten ==> s.c.published) && (!s.c.published ==> s.c.last == "")
  }

  lemma StepTracked(s: World, e: Event, overwritten: bool)
    requires Tracked(s, overwritten)
    ensures Tracked(Step(s, e), NextOverwritten(s.c, e, overwritten))
  {
    if e.Reconnected? {
      LogGrows(s.log, WasReset);
    } else {
      RefreshShape(s.c, e);
      RacedGrows(s.log, Refresh(s.c, e).tried, e.w.sendOk, e.race);
    }
  }

  /** A delta goes out with a reset just before it, or while a reset is overwritten. */
  predicate Exposed(c: Collector, e: Event, overwritten: bool) {
    PublishesDelta(c, e) && (e.race.BeforeSend? || overwritten)
  }

  lemma TriesDelta(c: Collector, e: Event)
    requires !e.Reconnected?
    ensures var tried := Refresh(c, e).tried;
      && (tried.Some? && tried.value.Delta? <==> PublishesDelta(c, e))
      && (PublishesDelta(c, e) ==> c.published && (c.last == "" || c.last == tried.value.host))
  {
    RefreshShape(c, e);
    NotBoth(c, e);
  }

  lemma StepDeltas(s: World, e: Event, overwritten: bool)
    requires Tracked(s, overwritten)
    ensures DeltasStand(Step(s, e).log) <==> DeltasStand(s.log) && !Exposed(s.c, e, overwritten)
  {
    if e.Reconnected? {
      LogGrows(s.log, WasReset);
    } else {
      TriesDelta(s.c, e);
      RacedGrows(s.log, Refresh(s.c, e).tried, e.w.sendOk, e.race);
    }
  }

  // ------------------------------------------------------------------- main results

  ghost predicate NeverExposed(es: seq<Event>)
    decreases |es|
  {
    es != [] ==>
      && !Exposed(Run(Initially, Front(es)).c, Last(es), Overwritten(Front(es)))
      && NeverExposed(Front(es))
  }

  lemma {:induction false} RunTracked(es: seq<Event>)
    ensures Tracked(Run(Initially, es), Overwritten(es))
    decreases |es|
  {
    if es != [] {
      RunTracked(Front(es));
      StepTracked(Run(Initially, Front(es)), Last(es), Overwritten(Front(es)));
    }
  }

  /** The published flag tells the truth at the end of a run exactly when no reset is
      overwritten there. */
  lemma FlagIsTrueExactly(es: seq<Event>)
    ensures var s := Run(Initially, es);
      (s.c.published <==> Standing(s.log).Some?) <==> !Overwritten(es)
  {
    RunTracked(es);
  }

  /** For every run, with resets at any point: no delta is tried after a reset before a full
      snapshot was delivered, exactly when no delta refresh sends its delta with a reset
      between its reads and its send, or while the recording of a delivered snapshot has
      overwritten a reset not followed by another reset or snapshot. */
  lemma {:induction false} NoDeltaBeforeFull(es: seq<Event>)
    ensures DeltasStand(Run(Initially, es).log) <==> NeverExposed(es)
    decreases |es|
  {
    if es != [] {
      NoDeltaBeforeFull(Front(es));
      RunTracked(Front(es));
      StepDeltas(Run(Initially, Front(es)), Last(es), Overwritten(Front(es)));
    }
  }

  /** With refreshes and resets one at a time it always holds, and the flag is always true. */
  lemma {:induction false} AloneStands(es: seq<Event>)
    requires forall i :: 0 <= i < |es| && !es[i].Reconnected? ==> es[i].race.Alone?
    ensures !Overwritten(es) && DeltasStand(Run(Initially, es).log)
    decreases |es|
  {
    if es != [] {
      AloneStands(Front(es));
      assert Last(es) == es[|es| - 1];
      NoDeltaBeforeFull(Front(es));
    }
    NoDeltaBeforeFull(es);
  }

  // ------------------------------------------------------- two runs where it does not

  const Quiescent := Meets("host", true, Some(Scan(NoInventory, {})), true)

  function Appearing(d: Detail): Option<Listing> {
    Some(Listing(map[], [Stack("p", d)], {}))
  }

  lemma AppearingSends(d: Detail, race: Race, race': Race)
    ensures var c := Step(Initially, FullDue(Quiescent, true, race)).c;
      race.Alone? || race.AfterSend? ==> PublishesDelta(c, DeltaDue(true, Appearing(d), Quiescent, race'))
  {
    var c, l := Step(Initially, FullDue(Quiescent, true, race)).c, Appearing(d).value;
    assert Upserts(c.inv.containers, l.containers) == map[];
    assert Removals(c.inv.containers, l.containers) == {};
  }

  /** The reset falls between the reads of a delta refresh and its send. */
  lemma DeltaAfterReset(d: Detail)
    ensures var es := [FullDue(Quiescent, true, Alone), DeltaDue(true, Appearing(d), Quiescent, BeforeSend)];
      !DeltasStand(Run(Initially, es).log)
  {
    var es := [FullDue(Quiescent, true, Alone), DeltaDue(true, Appearing(d), Quiescent, BeforeSend)];
    AppearingSends(d, Alone, BeforeSend);
    OneRun(es[0]);
    assert Front(es) == [es[0]];
    NoDeltaBeforeFull(es);
  }

  /** The reset falls between a snapshot's delivery and its recording; the next, undisturbed
      refresh then sends a delta. */
  lemma DeltaAfterLostReset(d: Detail)
    ensures var es := [FullDue(Quiescent, true, AfterSend), DeltaDue(true, Appearing(d), Quiescent, Alone)];
      !DeltasStand(Run(Initially, es).log)
  {
    var es := [FullDue(Quiescent, true, AfterSend), DeltaDue(true, Appearing(d), Quiescent, Alone)];
    AppearingSends(d, AfterSend, Alone);
    OneRun(es[0]);
    assert Front(es) == [es[0]] && Front([es[0]]) == [] && Run(Initially, []) == Initially;
    assert Overwritten([es[0]]);
    NoDeltaBeforeFull(es);
  }
}
