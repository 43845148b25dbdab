/**
 Runs of events. An invariant holds over all of them. Where a run is claimed to exist it
 is an orderly one: the event loop runs timers only when no continuation is left, and the
 preflight of the providers, a stub, never fails.
 */
module ScheduleRuns {
  import opened ScheduleState
  import opened ScheduleInvariant

  ghost predicate CanRun(s: State, es: seq<Event>)
    requires Inv(s)
    decreases |es|
  {
    es == [] || (Enabled(s, es[0]) && CanRun(Then(s, es[0]), es[1..]))
  }

  ghost function Then(s: State, e: Event): (u: State)
    requires Inv(s) && Enabled(s, e)
    ensures Inv(u)
  {
    NextKeeps(s, e);
    Next(s, e)
  }

  ghost function Run(s: State, es: seq<Event>): (u: State)
    requires Inv(s) && CanRun(s, es)
    ensures Inv(u)
    decreases |es|
  {
    if es == [] then s else Run(Then(s, es[0]), es[1..])
  }

  // ---- What the event loop allows ----

  predicate Timer(e: Event) {
    e.RetryDue? || e.ObserveTimeout? || e.CronTick?
  }

  /** The promise that the call awaits has been resolved. */
  predicate Continues(s: State, task: Task) {
    || task.phase == Slotted || task.phase == Releasing
    || (task.phase == Observing && task.Instance() in s.outcomes)
  }

  /** No continuation is left to run. */
  predicate Quiet(s: State) {
    s.gate.woken == [] && forall t :: t in s.tasks ==> !Continues(s, s.tasks[t])
  }

  predicate InOrder(s: State, e: Event) {
    (Timer(e) ==> Quiet(s)) && (e.Begin? ==> e.preflightOk)
  }

  ghost predicate Orderly(s: State, es: seq<Event>)
    requires Inv(s) && CanRun(s, es)
    decreases |es|
  {
    es == [] || (InOrder(s, es[0]) && Orderly(Then(s, es[0]), es[1..]))
  }

  ghost predicate Reaches(s: State, es: seq<Event>, u: State) {
    Inv(s) && CanRun(s, es) && Orderly(s, es) && Run(s, es) == u
  }

  lemma ReachesNone(s: State)
    requires Inv(s)
    ensures Reaches(s, [], s)
  {
  }

  lemma ReachesFirst(s: State, e: Event, es: seq<Event>, u: State)
    requires Inv(s) && Enabled(s, e) && InOrder(s, e) && Reaches(Then(s, e), es, u)
    ensures Reaches(s, [e] + es, u)
  {
    hide Inv, Then, Enabled, InOrder;
    assert ([e] + es)[0] == e && ([e] + es)[1..] == es;
  }

  lemma {:induction false} ReachesMore(s: State, es: seq<Event>, u: State, e: Event)
    requires Reaches(s, es, u) && Inv(u) && Enabled(u, e) && InOrder(u, e)
    ensures Reaches(s, es + [e], Then(u, e))
    decreases |es|
  {
    hide Inv, Then, Enabled, InOrder;
    if es == [] {
      ReachesNone(Then(u, e));
      ReachesFirst(u, e, [], Then(u, e));
      assert [] + [e] == [e] + [];
    } else {
      ReachesMore(Then(s, es[0]), es[1..], u, e);
      ReachesFirst(s, es[0], es[1..] + [e], Then(u, e));
      assert es + [e] == [es[0]] + (es[1..] + [e]);
    }
  }
}
