/** What a finished row says of the attempt behind it, over all that has happened since the boot. */
module ScheduleOutcomes {
  import opened Basics
  import opened ScheduleTypes
  import opened ScheduleGate
  import opened ScheduleState
  import opened ScheduleInvariant
  import opened ScheduleRuns
  import opened ScheduleTheorems
  import opened ScheduleStop
  import opened ScheduleEffects

  /** A row that this process has finished shows how the promise of its last attempt settled. */
  ghost predicate RowTells(s: State, row: RunRow) {
    var i := row.instance;
    && row.status !in {Running, Lost}
    && (row.status == Succeeded ==> i in s.outcomes && s.outcomes[i] == OkOutcome && row.error == None)
    && (row.status == TimedOut ==>
          i in s.outcomes && s.outcomes[i].TimeoutOutcome? && row.error == Some(s.outcomes[i].error))
    && (row.status == Failed ==> row.error.Some?)
    && (row.status == Skipped ==>
          || row.error == Some("provider endpoint unavailable")
          || (i in s.outcomes && s.outcomes[i].ErrorOutcome? && row.error == Some(s.outcomes[i].error)))
  }

  ghost predicate RowsTell(s: State) {
    forall run :: run in s.store.runs && run !in s.legacy ==> RowTells(s, s.store.runs[run])
  }

  lemma StillTells(s: State, u: State, row: RunRow)
    requires RowTells(s, row) && PromisesFramed(s.outcomes, u.outcomes)
    ensures RowTells(u, row)
  {
  }

  lemma ConcludedTells(s: State, u: State, t: Ticket, row: RunRow)
    requires t in s.tasks && s.tasks[t].Instance() in s.outcomes && row.instance == s.tasks[t].Instance()
    requires RowTells(s, row) && PromisesFramed(s.outcomes, u.outcomes)
    requires s.tasks[t].run in s.store.runs && s.store.runs[s.tasks[t].run] == row
    requires Concluded(s, u, t) && s.tasks[t].run in u.store.runs
    ensures RowTells(u, u.store.runs[s.tasks[t].run])
  {
    hide TriedAgain, GoesWith;
  }

  lemma BegunTells(s: State, u: State, t: Ticket, ok: bool)
    requires t in s.tasks && s.tasks[t].run in u.store.runs && Begun(s, u, t, ok)
    requires s.tasks[t].run in s.store.runs ==> RowTells(u, s.store.runs[s.tasks[t].run])
    ensures RowTells(u, u.store.runs[s.tasks[t].run])
  {
    hide GoesWith;
  }

  /** The row a call works for, as the call's event leaves it. */
  lemma TouchedTells(s: State, e: Event, run: Id)
    requires Inv(s) && Enabled(s, e) && RowsTell(s) && run in Touched(s, e) && run !in s.legacy
    requires run in Then(s, e).store.runs
    ensures RowTells(Then(s, e), Then(s, e).store.runs[run])
  {
    hide Inv, Then, Enabled, RowTells, RowsTell, Touched, Begun, Concluded, GoesWith, Frame, RowsFramed, PromisesFramed;
    TouchedIs(s, e, run);
    RowsStillTell(s, e);
    match e
    case Begin(t, ok) => BegunRow(s, t, ok); BegunTells(s, Then(s, e), t, ok);
    case DispatchResolves(t, d) => AdmittedRow(s, t, d); OpenTells(Then(s, e), Then(s, e).store.runs[run]);
    case DispatchRejects(t, reason) => RejectedRow(s, t, reason); OpenTells(Then(s, e), Then(s, e).store.runs[run]);
    case Conclude(t) => ConcludeTells(s, t);
    case RetryDue(t) => DueRow(s, t);
    case _ => NoFire(s, e, run);
  }

  /** Nothing that a row tells is taken back. */
  lemma RowsStillTell(s: State, e: Event)
    requires Inv(s) && Enabled(s, e) && RowsTell(s)
    ensures forall run :: run in s.store.runs && run !in s.legacy ==> RowTells(Then(s, e), s.store.runs[run])
    ensures PromisesFramed(s.outcomes, Then(s, e).outcomes)
  {
    hide Inv, Then, Enabled, RowTells, Touched, RowsFramed, CarriersFramed, PromisesFramed, FiredFramed;
    NextFrame(s, e);
    forall run | run in s.store.runs && run !in s.legacy ensures RowTells(Then(s, e), s.store.runs[run]) {
      StillTells(s, Then(s, e), s.store.runs[run]);
    }
  }

  lemma ConcludeTells(s: State, t: Ticket)
    requires Inv(s) && Enabled(s, Conclude(t)) && RowsTell(s) && s.tasks[t].run in Then(s, Conclude(t)).store.runs
    ensures var u := Then(s, Conclude(t)); RowTells(u, u.store.runs[s.tasks[t].run])
  {
    hide Inv, Then, RowTells, Concluded, PromisesFramed;
    var u := Then(s, Conclude(t));
    ConcludedRow(s, t);
    CarrierFacts(s, t);
    ConcludedKeeps(s, u, t);
    RowsStillTell(s, Conclude(t));
    ConcludedTells(s, u, t, s.store.runs[s.tasks[t].run]);
  }

  lemma ConcludedKeeps(s: State, u: State, t: Ticket)
    requires t in s.tasks && s.tasks[t].Instance() in s.outcomes && Concluded(s, u, t) && s.tasks[t].run in u.store.runs
    ensures s.tasks[t].run in s.store.runs
  {
  }

  lemma OpenTells(s: State, row: RunRow)
    requires row.status == Admitted || (row.status == Failed && row.error.Some?)
    ensures RowTells(s, row)
  {
  }

  lemma DueRow(s: State, t: Ticket)
    requires Inv(s) && Enabled(s, RetryDue(t))
    ensures Then(s, RetryDue(t)).store == s.store
  {
    hide Inv, RetryStep;
    StoreUnique(s);
    RetryTables(s, t);
  }

  /** A fire starts no row, and the run is new. */
  lemma NoFire(s: State, e: Event, run: Id)
    requires Inv(s) && Enabled(s, e) && run in Touched(s, e) && (e.FireNow? || e.CronTick?)
    ensures run !in Then(s, e).store.runs
  {
    hide Inv, Then;
    if run in s.store.runs {
      RunKnown(s, run);
    }
    NextFrame(s, e);
    FireKeepsStore(s, e);
  }

  lemma TouchedIs(s: State, e: Event, run: Id)
    requires run in Touched(s, e) && Enabled(s, e)
    ensures match e
      case FireNow(_, _) => true
      case CronTick(_, _) => true
      case Begin(t, _) => t in s.tasks && s.tasks[t].run == run
      case DispatchResolves(t, _) => t in s.tasks && s.tasks[t].run == run
      case DispatchRejects(t, _) => t in s.tasks && s.tasks[t].run == run
      case Conclude(t) =>
        InPhase(s, t, Observing) && s.tasks[t].run == run && s.tasks[t].Instance() in s.outcomes
      case RetryDue(t) => t in s.tasks && s.tasks[t].run == run
      case _ => false
  {
  }

  lemma NextTells(s: State, e: Event)
    requires Inv(s) && Enabled(s, e) && RowsTell(s)
    ensures RowsTell(Then(s, e))
  {
    hide Inv, Then, Enabled, RowTells, Touched;
    var u := Then(s, e);
    NextFrame(s, e);
    forall run | run in u.store.runs && run !in u.legacy ensures RowTells(u, u.store.runs[run]) {
      if run in Touched(s, e) {
        TouchedTells(s, e, run);
      } else {
        StillTells(s, u, s.store.runs[run]);
      }
    }
  }

  lemma {:induction false} RunTells(s: State, es: seq<Event>)
    requires Inv(s) && CanRun(s, es) && RowsTell(s)
    ensures RowsTell(Run(s, es))
    decreases |es|
  {
    if es != [] {
      NextTells(s, es[0]);
      hide Inv, Then, Enabled, RowsTell;
      RunTells(Then(s, es[0]), es[1..]);
    }
  }

  // ---- Where a good end comes from ----

  /** The k-th event of the run dispatches the instance. */
  ghost predicate DispatchedAt(s: State, es: seq<Event>, k: nat, i: Instance)
    requires Inv(s) && CanRun(s, es) && k < |es|
    decreases k
  {
    if k == 0 then i !in s.log && i in Then(s, es[0]).log else DispatchedAt(Then(s, es[0]), es[1..], k - 1, i)
  }

  /** The agent ends at the k-th event, and no turn of it reports an error after the b-th until then. */
  predicate EndsAfter(es: seq<Event>, b: int, k: int, i: Instance) {
    -1 <= b < k < |es| && es[k] == AgentEnd(i) && forall j :: b < j < k ==> !ReportsError(es[j], i)
  }

  predicate ReportsError(e: Event, i: Instance) {
    e.TurnError? && e.instance == i
  }

  predicate Clean(s: State, i: Instance) {
    i in s.pending && !s.pending[i].hadError
  }

  predicate EndedWell(s: State, i: Instance) {
    i in s.outcomes && s.outcomes[i] == OkOutcome
  }

  ghost predicate DispatchedThenEnds(s: State, es: seq<Event>, i: Instance)
    requires Inv(s) && CanRun(s, es)
  {
    exists b, k :: 0 <= b < |es| && DispatchedAt(s, es, b, i) && EndsAfter(es, b, k, i)
  }

  lemma OneEvent(s: State, e: Event, i: Instance)
    requires Inv(s) && Enabled(s, e)
    ensures var u := Then(s, e);
      && (i in s.log ==> i in u.log)
      && (EndedWell(u, i) ==> EndedWell(s, i) || (Clean(s, i) && e == AgentEnd(i)))
      && (Clean(u, i) ==>
            (Clean(s, i) && !ReportsError(e, i)) || (i !in s.log && i in u.log))
  {
    hide Inv, Then, Enabled, Clean, EndedWell, PromiseSettles, ReportsError;
    PromisesSettle(s, e, i);
    PendingWasLogged(s, i);
    PendingWasLogged(Then(s, e), i);
    Settled(s, Then(s, e), e, i);
  }

  lemma Settled(s: State, u: State, e: Event, i: Instance)
    requires PromiseSettles(s, u, e, i) && (i in s.pending ==> i in s.log && i !in s.outcomes) && NoDup(u.log)
    ensures (i in s.log ==> i in u.log) && (EndedWell(u, i) ==> EndedWell(s, i) || (Clean(s, i) && e == AgentEnd(i)))
    ensures Clean(u, i) ==> (Clean(s, i) && !ReportsError(e, i)) || (i !in s.log && i in u.log)
  {
    NewInLog(s, u, i);
  }

  lemma PendingWasLogged(s: State, i: Instance)
    requires Inv(s)
    ensures i in s.pending ==> i in s.log && i !in s.outcomes
    ensures NoDup(s.log)
  {
  }

  lemma NewInLog(s: State, u: State, i: Instance)
    requires s.log <= u.log && NoDup(u.log)
    ensures i in u.log[|s.log|..] ==> i !in s.log && i in u.log
  {
    if k :| |s.log| <= k < |u.log| && u.log[k] == i {
      assert forall j :: 0 <= j < |s.log| ==> s.log[j] == u.log[j] != u.log[k];
    }
  }

  /** An attempt that ended well did so before, or now: it was dispatched, and its agent came to
      its end with no error reported in between. */
  lemma {:induction false} EndedWellBecause(s: State, es: seq<Event>, i: Instance)
    requires Inv(s) && CanRun(s, es) && EndedWell(Run(s, es), i)
    ensures || EndedWell(s, i) || (Clean(s, i) && exists k :: EndsAfter(es, -1, k, i))
            || DispatchedThenEnds(s, es, i)
    decreases |es|
  {
    if es != [] {
      var u, rest := Then(s, es[0]), es[1..];
      OneEvent(s, es[0], i);
      hide Inv, Then, Enabled, Clean, EndedWell, DispatchedThenEnds, EndsAfter;
      EndedWellBecause(u, rest, i);
      if DispatchedThenEnds(u, rest, i) {
        DispatchedLater(s, es, i);
      } else if Clean(u, i) && exists k :: EndsAfter(rest, -1, k, i) {
        var k :| EndsAfter(rest, -1, k, i);
        EndsLater(es, -1, k, i);
        if !(Clean(s, i) && !ReportsError(es[0], i)) {
          DispatchedFirst(s, es, k + 1, i);
        }
      } else if !EndedWell(s, i) {
        EndsNow(es, i);
      }
    }
  }

  lemma DispatchedLater(s: State, es: seq<Event>, i: Instance)
    requires Inv(s) && CanRun(s, es) && es != [] && DispatchedThenEnds(Then(s, es[0]), es[1..], i)
    requires i in s.log ==> i in Then(s, es[0]).log
    ensures DispatchedThenEnds(s, es, i)
  {
    hide Inv, Then, Enabled, EndsAfter;
    var u, rest := Then(s, es[0]), es[1..];
    var b, k :| 0 <= b < |rest| && DispatchedAt(u, rest, b, i) && EndsAfter(rest, b, k, i);
    EndsLater(es, b, k, i);
    assert DispatchedAt(s, es, b + 1, i);
  }

  lemma DispatchedFirst(s: State, es: seq<Event>, k: int, i: Instance)
    requires Inv(s) && CanRun(s, es) && es != [] && i !in s.log && i in Then(s, es[0]).log
    requires EndsAfter(es, 0, k, i)
    ensures DispatchedThenEnds(s, es, i)
  {
    hide Inv, Then, Enabled, EndsAfter;
    assert DispatchedAt(s, es, 0, i);
  }

  lemma EndsNow(es: seq<Event>, i: Instance)
    requires es != [] && es[0] == AgentEnd(i)
    ensures EndsAfter(es, -1, 0, i)
  {
  }

  lemma EndsLater(es: seq<Event>, b: int, k: int, i: Instance)
    requires es != [] && EndsAfter(es[1..], b, k, i)
    ensures EndsAfter(es, b + 1, k + 1, i)
    ensures b == -1 && !ReportsError(es[0], i) ==> EndsAfter(es, -1, k + 1, i)
  {
    assert forall j :: 0 < j < |es| ==> es[j] == es[1..][j - 1];
  }

  /** A row that this process turned succeeded belongs to an attempt that was dispatched and whose
      agent came to its end without a turn reporting an error since the dispatch. */
  lemma SucceededMeansEndedWell(s: State, es: seq<Event>, run: Id)
    requires Booted(s) && Inv(s) && CanRun(s, es)
    requires var u := Run(s, es);
      run in u.store.runs && run !in u.legacy && u.store.runs[run].status == Succeeded
    ensures DispatchedThenEnds(s, es, Run(s, es).store.runs[run].instance)
  {
    var u := Run(s, es);
    hide Inv, CanRun, Run;
    assert RowsTell(s);
    RunTells(s, es);
    assert RowTells(u, u.store.runs[run]);
    EndedWellBecause(s, es, u.store.runs[run].instance);
  }
}
