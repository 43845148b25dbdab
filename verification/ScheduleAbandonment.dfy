/** Which runs have their retry discarded, event by event, and schedule by schedule. */
module ScheduleAbandonment {
  import opened ScheduleTypes
  import opened ScheduleGate
  import opened ScheduleState
  import opened ScheduleInvariant
  import opened ScheduleRuns
  import opened ScheduleTheorems

  /** The runs whose retry this event discards: those with a timer armed for the schedule being
      paused, all armed ones at a stop, and after a stop the retry that wakes or comes due. */
  function Drops(s: State, e: Event): set<Id> {
    match e
    case Save(rec, _) => if !rec.enabled || s.shuttingDown then RunsOf(s, TimersOf(s, rec.id)) else {}
    case Stop => RunsOf(s, AllTimers(s))
    case ResumeWaiter =>
      if s.shuttingDown && s.gate.woken != [] && s.gate.woken[0] in s.tasks && s.tasks[s.gate.woken[0]].attempt > 0
      then {s.tasks[s.gate.woken[0]].run} else {}
    case RetryDue(t) => if s.shuttingDown && t in s.tasks then {s.tasks[t].run} else {}
    case _ => {}
  }

  lemma ResumeDrops(s: State)
    requires s.gate.woken != [] && s.gate.woken[0] in s.tasks
    ensures ResumeStep(s).abandoned == s.abandoned + Drops(s, ResumeWaiter)
  {
  }

  lemma RetryDrops(s: State, t: Ticket)
    requires t in s.tasks
    ensures RetryStep(s, t).abandoned == s.abandoned + Drops(s, RetryDue(t))
  {
  }

  lemma SaveDrops(s: State, rec: Schedule, valid: bool)
    ensures Sync(Saved(s, rec), rec, valid).abandoned == s.abandoned + Drops(s, Save(rec, valid))
  {
    assert RunsOf(Saved(s, rec), TimersOf(s, rec.id)) == RunsOf(s, TimersOf(s, rec.id));
  }

  lemma StopDrops(s: State)
    ensures StopStep(s).abandoned == s.abandoned + Drops(s, Stop)
  {
  }

  /** Exactly these runs are abandoned, and no others. */
  lemma AbandonsExactly(s: State, e: Event)
    requires Inv(s) && Enabled(s, e)
    ensures Then(s, e).abandoned == s.abandoned + Drops(s, e)
  {
    hide Fire, EndAttempt, BeginStep, ConcludeStep, RetryStep, Settle, Sync, Saved, StopStep, ResumeStep, TimeoutStep,
         ReleaseStep, DeleteStep, RejectStep, GateLinked, RowsSound, TasksSound, RowsAgree, OpenRowsCarried,
         AbandonedSound, ObservationsSound, LogSound, LogBehind, TimersTracked, NoIdleSlot, GateInv, TheId, Frame;
    StoreUnique(s);
    assert s.abandoned + {} == s.abandoned;
    match e
    case ResumeWaiter => GateWakes(s.gate, s.tasks, s.next); ResumeDrops(s);
    case RetryDue(t) => RetryDrops(s, t);
    case Save(rec, valid) => SaveDrops(s, rec, valid);
    case Stop => StopDrops(s);
    case _ => NextFrame(s, e);
  }

  // ---- One schedule at a time ----

  /** The event neither stops the manager nor pauses this schedule. */
  predicate LeavesAlone(s: State, e: Event, sid: Id) {
    !s.shuttingDown && !e.Stop? && (e.Save? && e.rec.id == sid ==> e.rec.enabled)
  }

  ghost predicate AlwaysLeavesAlone(s: State, es: seq<Event>, sid: Id)
    requires Inv(s) && CanRun(s, es)
    decreases |es|
  {
    es == [] || (LeavesAlone(s, es[0], sid) && AlwaysLeavesAlone(Then(s, es[0]), es[1..], sid))
  }

  /** What an event drops although it leaves the schedule alone belongs to another one. */
  lemma DropsOthers(s: State, e: Event, sid: Id, run: Id)
    requires Inv(s) && LeavesAlone(s, e, sid) && run in Drops(s, e)
    ensures run in s.fired && s.fired[run].id != sid
  {
    var rec := e.rec;
    var t :| t in TimersOf(s, rec.id) && t in s.tasks && s.tasks[t].run == run;
    TrackedIsBackoff(s, rec.id, t);
    CarrierFacts(s, t);
  }

  lemma {:induction false} FiredForGood(s: State, es: seq<Event>, run: Id)
    requires Inv(s) && CanRun(s, es) && run in s.fired
    ensures run in Run(s, es).fired && Run(s, es).fired[run] == s.fired[run]
    decreases |es|
  {
    if es != [] {
      NextFrame(s, es[0]);
      hide Inv, Then, Enabled;
      FiredForGood(Then(s, es[0]), es[1..], run);
    }
  }

  predicate OpenRowOf(s: State, run: Id, sid: Id) {
    run in s.fired && s.fired[run].id == sid && run in s.store.runs && !Terminal(s.store.runs[run].status)
  }

  /** As long as nobody pauses the schedule or stops the manager, every open row of its runs
      has its carrier, whatever happens to other schedules. */
  lemma {:induction false} EveryOpenRowOfScheduleMoves(s: State, es: seq<Event>, run: Id, sid: Id)
    requires Inv(s) && CanRun(s, es) && AlwaysLeavesAlone(s, es, sid)
    requires run !in s.abandoned && run !in s.legacy
    ensures var u := Run(s, es);
      OpenRowOf(u, run, sid) ==> Carried(u.tasks, run)
    decreases |es|
  {
    if es == [] {
      if run in s.store.runs && !Terminal(s.store.runs[run].status) {
        OpenWithoutCarrier(s, run);
      }
    } else {
      var u := Then(s, es[0]);
      NextFrame(s, es[0]);
      AbandonsExactly(s, es[0]);
      hide Inv, Then, Enabled, Drops, LeavesAlone;
      if run in Drops(s, es[0]) {
        DropsOthers(s, es[0], sid, run);
        FiredForGood(u, es[1..], run);
      } else {
        EveryOpenRowOfScheduleMoves(u, es[1..], run, sid);
      }
    }
  }
}
