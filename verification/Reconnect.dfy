/** The reconnect loop: exponential backoff, the slower pace after repeated authentication
    failures, and re-enrollment. Durations and times are nanoseconds. */
module Reconnect {
  import opened Text

  const Second := 1_000_000_000
  const Minute := 60 * Second
  const MaxBackoff := 60 * Second
  const AuthBackoff := 5 * Minute
  const AuthThreshold: nat := 3
  const ReEnrollGap := 10 * Minute

  /** What one turn of the loop meets. A failed attempt brings the random number (if the
      generator works), and the course of a re-enrollment if one is made: the clock when the
      loop checks the gap, whether it succeeds, and the clock afterwards. */
  datatype Event =
    | Connects
    | Fails(auth: bool, random: Option<nat>, canReEnroll: bool, checkedAt: int, succeeds: bool, doneAt: int)
    | TokenUpdated

  datatype Loop = Loop(backoff: int, failures: nat, lastReEnroll: Option<int>)

  datatype Pause = Wait(d: int) | AtOnce | Proceed
  datatype ReEnrollment = ReEnrollment(start: int, done: int)
  datatype Outcome = Outcome(next: Loop, pause: Pause, made: Option<ReEnrollment>)

  const Initially := Loop(Second, 0, None)

  /** jitterDuration. */
  function Jitter(max: int, random: Option<nat>): (j: int)
    ensures 0 <= j && (max > 0 ==> j < max)
  {
    if max <= 0 || random.None? then 0 else random.value % max
  }

  /** Every length below the bound can come up. */
  lemma JitterReaches(max: int, j: nat)
    requires j < max
    ensures Jitter(max, Some(j)) == j && Jitter(max, None) == 0
  {
  }

  function Doubled(backoff: int): int {
    if backoff * 2 < MaxBackoff then backoff * 2 else MaxBackoff
  }

  /** Whether a failure is handled at the slow pace. */
  predicate Slow(l: Loop, e: Event) {
    e.Fails? && e.auth && l.failures + 1 >= AuthThreshold
  }

  predicate ReEnrolls(l: Loop, e: Event) {
    Slow(l, e) && e.canReEnroll && (l.lastReEnroll.None? || e.checkedAt - l.lastReEnroll.value > ReEnrollGap)
  }

  function Step(l: Loop, e: Event): Outcome {
    match e
    case Connects => Outcome(l.(backoff := Second, failures := 0), Proceed, None)
    case TokenUpdated => Outcome(l.(failures := 0), Proceed, None)
    case Fails(auth, random, _, checkedAt, succeeds, doneAt) =>
      var counted := if auth then l.(failures := l.failures + 1) else l;
      if !Slow(l, e) then
        Outcome(counted.(backoff := Doubled(l.backoff)), Wait(l.backoff + Jitter(l.backoff / 4, random)), None)
      else if !ReEnrolls(l, e) then Outcome(counted, Wait(AuthBackoff), None)
      else if succeeds then
        Outcome(Loop(Second, 0, Some(doneAt)), AtOnce, Some(ReEnrollment(checkedAt, doneAt)))
      else
        Outcome(counted.(lastReEnroll := Some(doneAt)), Wait(AuthBackoff), Some(ReEnrollment(checkedAt, doneAt)))
  }

  class ReconnectLoop {
    var backoff: int
    var consecutiveAuthFailures: nat
    var lastReEnrollAt: Option<int>

    function State(): Loop
      reads this
    {
      Loop(backoff, consecutiveAuthFailures, lastReEnrollAt)
    }

    constructor ()
      ensures State() == Initially
    {
      backoff, consecutiveAuthFailures, lastReEnrollAt := Second, 0, None;
    }

    /** The reset shared by connecting and by a new token. */
    method ResetFailures()
      modifies this`consecutiveAuthFailures
      ensures State() == Step(old(State()), TokenUpdated).next
    {
      consecutiveAuthFailures := 0;
    }

    method Connected()
      modifies this
      ensures State() == Step(old(State()), Connects).next
    {
      consecutiveAuthFailures := 0;
      backoff := Second;
    }

    /** The loop body after a failed attempt. */
    method Failed(e: Event) returns (pause: Pause, made: Option<ReEnrollment>)
      requires e.Fails?
      modifies this
      ensures Outcome(State(), pause, made) == Step(old(State()), e)
    {
      made := None;
      if e.auth {
        consecutiveAuthFailures := consecutiveAuthFailures + 1;
        if consecutiveAuthFailures >= AuthThreshold {
          pause := Wait(AuthBackoff);
          if e.canReEnroll && (lastReEnrollAt.None? || e.checkedAt - lastReEnrollAt.value > ReEnrollGap) {
            made := Some(ReEnrollment(e.checkedAt, e.doneAt));
            if e.succeeds {
              ResetFailures();
              lastReEnrollAt := Some(e.doneAt);
              backoff := Second;
              return AtOnce, made;
            }
            lastReEnrollAt := Some(e.doneAt);
          }
          return;
        }
      }
      pause := Wait(backoff + Jitter(backoff / 4, e.random));
      backoff := Doubled(backoff);
    }
  }

  // --------------------------------------------------------------------------- runs

  function Run(es: seq<Event>): Loop
    decreases |es|
  {
    if es == [] then Initially else Step(Run(Front(es)), Last(es)).next
  }

  /** The re-enrollments of a run, in order. */
  function Made(es: seq<Event>): seq<ReEnrollment>
    decreases |es|
  {
    if es == [] then []
    else
      var made := Step(Run(Front(es)), Last(es)).made;
      if made.Some? then Made(Front(es)) + [made.value] else Made(Front(es))
  }

  /** Whether the last event of a history gives the agent a new token. */
  predicate Renews(es: seq<Event>)
    requires es != []
  {
    Last(es).TokenUpdated? || (ReEnrolls(Run(Front(es)), Last(es)) && Last(es).succeeds)
  }

  /** Authentication failures since the last connect or new token. Other failures in between
      do not start the count again. */
  function AuthFailures(es: seq<Event>): nat
    decreases |es|
  {
    if es == [] || Last(es).Connects? || Renews(es) then 0
    else AuthFailures(Front(es)) + if Last(es).Fails? && Last(es).auth then 1 else 0
  }

  /** Failures handled at the quick pace since the last connect or re-enrollment. */
  function QuickFailures(es: seq<Event>): nat
    decreases |es|
  {
    if es == [] || Last(es).Connects? || (ReEnrolls(Run(Front(es)), Last(es)) && Last(es).succeeds) then 0
    else QuickFailures(Front(es)) + if Last(es).Fails? && !Slow(Run(Front(es)), Last(es)) then 1 else 0
  }

  lemma {:induction false} FailuresCounted(es: seq<Event>)
    ensures Run(es).failures == AuthFailures(es)
    decreases |es|
  {
    if es != [] {
      FailuresCounted(Front(es));
    }
  }

  /** min(60 s, 2^k s). */
  function Backoff(k: nat): (b: int)
    ensures Second <= b <= MaxBackoff
  {
    if k < 6 then Pow2(k) * Second else MaxBackoff
  }

  function Pow2(k: nat): (p: nat)
    requires k < 6
    ensures 1 <= p <= 32
  {
    [1, 2, 4, 8, 16, 32][k]
  }

  lemma BackoffDoubles(k: nat)
    ensures Backoff(k + 1) == Doubled(Backoff(k))
  {
  }

  /** The backoff is min(60 s, 2^k s) for the k quick failures since it was reset; so it
      always lies between 1 s and 60 s. */
  lemma {:induction false} BackoffClosedForm(es: seq<Event>)
    ensures Run(es).backoff == Backoff(QuickFailures(es))
    decreases |es|
  {
    if es != [] {
      BackoffClosedForm(Front(es));
      BackoffDoubles(QuickFailures(Front(es)));
    }
  }

  /** In every run: a failure is followed by a five-minute wait or an immediate retry exactly
      when it is the third or a later authentication failure since the last connect or new
      token, the immediate retry exactly when a re-enrollment is possible, was not made within
      the last ten minutes and succeeds; every other failure waits at least 1 s and less than 75 s. */
  lemma WaitsBounded(es: seq<Event>, e: Event)
    requires e.Fails?
    ensures var o := Step(Run(es), e);
      var slow := e.auth && AuthFailures(es) + 1 >= 3;
      && (o.pause.AtOnce? <==> slow && MayReEnroll(es, e) && e.succeeds)
      && (slow && !o.pause.AtOnce? ==> o.pause == Wait(5 * Minute))
      && (!slow ==> o.pause.Wait? && Second <= o.pause.d < 75 * Second)
  {
    FailuresCounted(es);
    BackoffClosedForm(es);
    LastMade(es);
  }

  /** Re-enrollment is possible, and the last one, if any, ended over ten minutes ago. */
  predicate MayReEnroll(es: seq<Event>, e: Event)
    requires e.Fails?
  {
    e.canReEnroll && (Made(es) == [] || e.checkedAt - Last(Made(es)).done > 10 * Minute)
  }

  lemma {:induction false} LastMade(es: seq<Event>)
    ensures Made(es) != [] <==> Run(es).lastReEnroll.Some?
    ensures Made(es) != [] ==> Run(es).lastReEnroll.value == Last(Made(es)).done
    decreases |es|
  {
    if es != [] {
      LastMade(Front(es));
    }
  }

  /** In every run a re-enrollment is made exactly at the third or a later authentication
      failure since the last connect or new token, when it is possible and the last one ended
      over ten minutes ago; a successful one starts the backoff and the count again. */
  lemma ReEnrollsExactly(es: seq<Event>, e: Event)
    requires e.Fails?
    ensures var o := Step(Run(es), e);
      && (o.made.Some? <==> e.auth && AuthFailures(es) + 1 >= 3 && MayReEnroll(es, e))
      && (o.made.Some? ==> o.made.value == ReEnrollment(e.checkedAt, e.doneAt))
      && (o.made.Some? && e.succeeds ==> o.next.backoff == Second && o.next.failures == 0)
  {
    FailuresCounted(es);
    LastMade(es);
  }

  // ------------------------------------------------------------ re-enrollment spacing

  ghost predicate Spaced(made: seq<ReEnrollment>) {
    forall i, j :: 0 <= i < j < |made| ==> made[j].start - made[i].start > ReEnrollGap
  }

  ghost predicate Tracked(es: seq<Event>) {
    && Spaced(Made(es))
    && (Made(es) != [] <==> Run(es).lastReEnroll.Some?)
    && (Made(es) != [] ==> Run(es).lastReEnroll.value == Last(Made(es)).done)
    && forall i :: 0 <= i < |Made(es)| ==> Made(es)[i].start <= Made(es)[i].done
  }

  /** The clock does not go back while a re-enrollment is made. */
  ghost predicate Timely(e: Event) {
    e.Fails? ==> e.checkedAt <= e.doneAt
  }

  lemma SpacedSnoc(made: seq<ReEnrollment>, m: ReEnrollment)
    requires Spaced(made) && (made != [] ==> m.start - Last(made).start > ReEnrollGap)
    ensures Spaced(made + [m])
  {
    var all := made + [m];
    forall i, j | 0 <= i < j < |all|
      ensures all[j].start - all[i].start > ReEnrollGap
    {
      if j == |made| && i < |made| - 1 {
        assert made[|made| - 1].start - made[i].start > ReEnrollGap;
      }
    }
  }

  /** In every run, any two re-enrollments start more than ten minutes apart. */
  lemma {:induction false} ReEnrollmentsSpaced(es: seq<Event>)
    requires forall i :: 0 <= i < |es| ==> Timely(es[i])
    ensures Tracked(es)
    decreases |es|
  {
    if es != [] {
      ReEnrollmentsSpaced(Front(es));
      var l, e := Run(Front(es)), Last(es);
      if ReEnrolls(l, e) {
        SpacedSnoc(Made(Front(es)), ReEnrollment(e.checkedAt, e.doneAt));
      }
    }
  }
}
