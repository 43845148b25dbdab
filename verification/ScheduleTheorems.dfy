/** What holds in every state the schedule runtime can reach, whatever the interleaving. */
module ScheduleTheorems {
  import opened Basics
  import opened ScheduleTypes
  import opened ScheduleGate
  import opened ScheduleState
  import opened ScheduleInvariant
  import opened ScheduleRuns

  // ---- Carriers and rows ----

  /** A run has at most one carrier, none once its row is terminal, and the
      carrier's attempt is the one its row shows. */
  lemma AtMostOneCarrier(s: State, run: Id, t: Ticket, u: Ticket)
    requires Inv(s) && CarriedBy(s.tasks, run, t) && CarriedBy(s.tasks, run, u)
    ensures t == u
    ensures run in s.store.runs ==>
      var row := s.store.runs[run]; var task := s.tasks[t];
      && !Terminal(row.status) && row.attempt == task.attempt && row.instance == task.Instance()
      && row.status == (if task.phase == Observing then Admitted else Queued)
  {
  }

  /** An open row has no carrier exactly when an earlier process left it, or its retry was
      cancelled or turned away. A carrier of a stopped manager may wait in vain, though. */
  lemma OpenWithoutCarrier(s: State, run: Id)
    requires Inv(s) && run in s.store.runs && !Terminal(s.store.runs[run].status)
    ensures !Carried(s.tasks, run) <==> run in s.legacy || run in s.abandoned
  {
  }

  // ---- What one event leaves alone ----

  ghost predicate RowsFramed(before: map<Id, RunRow>, after: map<Id, RunRow>, touched: set<Id>) {
    forall r :: r in after && r !in touched ==> r in before && after[r] == before[r]
  }

  ghost predicate CarriersFramed(before: Tasks, after: Tasks, touched: set<Id>) {
    forall r, t :: CarriedBy(after, r, t) && r !in touched ==> CarriedBy(before, r, t)
  }

  ghost predicate PromisesFramed(before: map<Instance, Outcome>, after: map<Instance, Outcome>) {
    forall i :: i in before ==> i in after && after[i] == before[i]
  }

  ghost predicate FiredFramed(before: map<Id, Schedule>, after: map<Id, Schedule>) {
    forall r :: r in before ==> r in after && after[r] == before[r]
  }

  /** Only the runs in `touched` may move; a settled promise keeps its value. */
  ghost predicate Frame(s: State, u: State, touched: set<Id>) {
    && u.cfg == s.cfg && u.legacy == s.legacy && FiredFramed(s.fired, u.fired)
    && RowsFramed(s.store.runs, u.store.runs, touched)
    && CarriersFramed(s.tasks, u.tasks, touched)
    && PromisesFramed(s.outcomes, u.outcomes)
  }

  lemma FrameTrans(s: State, u: State, v: State, touched: set<Id>)
    requires Frame(s, u, touched) && Frame(u, v, touched)
    ensures Frame(s, v, touched)
  {
  }

  /** The run an event is about: the one it fires, or the one its task carries. */
  function Touched(s: State, e: Event): set<Id> {
    match e
    case FireNow(_, run) => {run}
    case CronTick(_, run) => {run}
    case Begin(t, _) => RunOf(s, t)
    case DispatchResolves(t, _) => RunOf(s, t)
    case DispatchRejects(t, _) => RunOf(s, t)
    case Conclude(t) => RunOf(s, t)
    case RetryDue(t) => RunOf(s, t)
    case _ => {}
  }

  function RunOf(s: State, t: Ticket): set<Id> {
    if t in s.tasks then {s.tasks[t].run} else {}
  }

  lemma FireFrame(s: State, rec: Schedule, run: Id)
    requires FreshRun(s, run)
    ensures Frame(s, Fire(s, rec, run), {run}) && Fire(s, rec, run).abandoned == s.abandoned
  {
  }

  lemma AutoDeleteFrame(s: State, rec: Schedule)
    ensures Frame(s, AutoDelete(s, rec), {}) && AutoDelete(s, rec).abandoned == s.abandoned
  {
  }

  lemma FrameMore(s: State, u: State, touched: set<Id>, more: set<Id>)
    requires Frame(s, u, touched) && touched <= more
    ensures Frame(s, u, more)
  {
  }

  lemma FinishFrame(s: State, t: Ticket, status: Status, error: Option<string>)
    requires t in s.tasks
    ensures var run := s.tasks[t].run;
      var u := SetPhase(s, t, Releasing).(store := s.store.Finish(run, status, error));
      Frame(s, u, {run}) && u.abandoned == s.abandoned
  {
  }

  lemma EndFrame(s: State, t: Ticket, status: Status, error: Option<string>)
    requires t in s.tasks
    ensures Frame(s, EndAttempt(s, t, status, error), {s.tasks[t].run})
    ensures EndAttempt(s, t, status, error).abandoned == s.abandoned
  {
    hide Frame, AutoDelete, SetPhase;
    var task := s.tasks[t];
    var u := SetPhase(s, t, Releasing).(store := s.store.Finish(task.run, status, error));
    FinishFrame(s, t, status, error);
    AutoDeleteFrame(u, task.rec);
    FrameMore(u, AutoDelete(u, task.rec), {}, {task.run});
    FrameTrans(s, u, AutoDelete(u, task.rec), {task.run});
  }

  lemma PhaseFrame(s: State, t: Ticket, p: Phase)
    requires t in s.tasks
    ensures Frame(s, SetPhase(s, t, p), {s.tasks[t].run}) && Frame(s, EnterGate(s, t), {s.tasks[t].run})
  {
  }

  lemma AttemptFrame(s: State, t: Ticket)
    requires t in s.tasks
    ensures Frame(s, BeginAttempt(s, t), {s.tasks[t].run}) && BeginAttempt(s, t).abandoned == s.abandoned
    ensures Frame(s, ArmRetry(s, t), {s.tasks[t].run}) && ArmRetry(s, t).abandoned == s.abandoned
    ensures SetPhase(s, t, Releasing).abandoned == s.abandoned
  {
  }

  lemma StartFrame(s: State, sid: Id, run: Id)
    ensures var u := RowStarted(s, sid, run); Frame(s, u, {run}) && u.abandoned == s.abandoned && u.tasks == s.tasks
  {
  }

  lemma BeginFrame(s: State, t: Ticket, ok: bool)
    requires t in s.tasks
    ensures Frame(s, BeginStep(s, t, ok), {s.tasks[t].run}) && BeginStep(s, t, ok).abandoned == s.abandoned
  {
    hide *;
    var task := s.tasks[t];
    var u := RowStarted(s, task.rec.id, task.run);
    BeginStepIs(s, t, ok);
    StartFrame(s, task.rec.id, task.run);
    PhaseFrame(s, t, Releasing);
    AttemptFrame(s, t);
    AttemptFrame(u, t);
    EndFrame(u, t, Skipped, Some("provider endpoint unavailable"));
    FrameTrans(s, u, BeginAttempt(u, t), {task.run});
    FrameTrans(s, u, EndAttempt(u, t, Skipped, Some("provider endpoint unavailable")), {task.run});
  }

  lemma ConcludeFrame(s: State, t: Ticket, o: Outcome)
    requires t in s.tasks
    ensures Frame(s, ConcludeStep(s, t, o), {s.tasks[t].run}) && ConcludeStep(s, t, o).abandoned == s.abandoned
  {
    hide Frame, EndAttempt, Retries;
    match o
    case OkOutcome => EndFrame(s, t, Succeeded, None);
    case TimeoutOutcome(m) => EndFrame(s, t, TimedOut, Some(m));
    case ErrorOutcome(m) =>
      AttemptFrame(s, t);
      EndFrame(s, t, if IsTransient(s.cfg.classify(m)) then Failed else Skipped, Some(m));
  }

  lemma RetryFrame(s: State, t: Ticket)
    requires t in s.tasks
    ensures Frame(s, RetryStep(s, t), {s.tasks[t].run})
    ensures !s.shuttingDown ==> RetryStep(s, t).abandoned == s.abandoned
  {
    PhaseFrame(s, t, Gated);
    ForgetFrame(s, {t});
    ForgetFrame(s, {t} + TimersOf(s, s.tasks[t].rec.id));
    assert s.tasks - {t} - (TimersOf(s, s.tasks[t].rec.id) - {t})
        == s.tasks - ({t} + TimersOf(s, s.tasks[t].rec.id));
    hide CarriersFramed, RowsFramed, PromisesFramed;
  }

  lemma ForgetFrame(s: State, gone: set<Ticket>)
    ensures CarriersFramed(s.tasks, s.tasks - gone, {})
    ensures forall touched :: CarriersFramed(s.tasks, s.tasks - gone, touched)
  {
  }

  lemma SettleFrame(s: State, i: Instance, o: Outcome)
    requires Inv(s)
    ensures Frame(s, Settle(s, i, o), {}) && Settle(s, i, o).abandoned == s.abandoned
  {
    hide GateLinked, RowsSound, TasksSound, RowsAgree, OpenRowsCarried, AbandonedSound,
         LogSound, LogBehind, TimersTracked, NoIdleSlot, GateInv;
  }

  lemma SyncFrame(s: State, rec: Schedule, validPattern: bool)
    ensures Frame(s, Sync(s, rec, validPattern), {})
    ensures rec.enabled && !s.shuttingDown ==> Sync(s, rec, validPattern).abandoned == s.abandoned
  {
    ForgetFrame(s, TimersOf(s, rec.id));
  }

  lemma StopFrame(s: State)
    requires Inv(s)
    ensures Frame(s, StopStep(s), {})
  {
    hide GateLinked, RowsSound, TasksSound, RowsAgree, OpenRowsCarried, AbandonedSound,
         LogSound, LogBehind, TimersTracked, NoIdleSlot, GateInv;
    ForgetFrame(s, AllTimers(s));
    hide CarriersFramed;
  }

  predicate PausesOrStops(s: State, e: Event) {
    || e.Stop? || (e.Save? && (!e.rec.enabled || s.shuttingDown))
    || (s.shuttingDown && (e.ResumeWaiter? || e.RetryDue?))
  }

  lemma ResumeFrame(s: State)
    requires s.gate.woken != [] && s.gate.woken[0] in s.tasks && s.tasks[s.gate.woken[0]].Carries()
    ensures Frame(s, ResumeStep(s), {})
    ensures !s.shuttingDown ==> ResumeStep(s).abandoned == s.abandoned
  {
    ForgetFrame(s, {s.gate.woken[0]});
  }

  lemma AdmitFrame(s: State, t: Ticket, d: string)
    requires t in s.tasks
    ensures Frame(s, AdmitStep(s, t, d), {s.tasks[t].run})
  {
  }

  lemma RejectFrame(s: State, t: Ticket, reason: string)
    requires Inv(s) && t in s.tasks
    ensures var u := Settle(s, s.tasks[t].Instance(), TimeoutOutcome("cancelled"));
      && u.tasks == s.tasks
      && Frame(s, EndAttempt(u, t, Failed, Some(reason)), {s.tasks[t].run})
      && EndAttempt(u, t, Failed, Some(reason)).abandoned == s.abandoned
  {
    var i := s.tasks[t].Instance();
    var u := Settle(s, i, TimeoutOutcome("cancelled"));
    SettleFrame(s, i, TimeoutOutcome("cancelled"));
    assert u.tasks == s.tasks;
    hide Settle, Inv;
    EndFrame(u, t, Failed, Some(reason));
    hide EndAttempt;
    assert Frame(s, u, {s.tasks[t].run});
    FrameTrans(s, u, EndAttempt(u, t, Failed, Some(reason)), {s.tasks[t].run});
  }

  lemma ReleaseFrame(s: State, t: Ticket)
    requires t in s.tasks
    ensures Frame(s, ReleaseStep(s, t), {})
  {
    ForgetFrame(s, {t});
  }

  lemma DeleteFrame(s: State, id: Id)
    ensures Frame(s, DeleteStep(s, id), {})
  {
    ForgetFrame(s, TimersOf(s, id));
  }

  lemma TurnErrorFrame(s: State, i: Instance, m: string)
    requires i in s.pending
    ensures Frame(s, TurnErrorStep(s, i, m), {}) && Frame(s, s, {})
  {
  }

  lemma SaveFrame(s: State, rec: Schedule, validPattern: bool)
    ensures var u := Saved(s, rec);
      && Frame(s, Sync(u, rec, validPattern), {})
      && (rec.enabled && !s.shuttingDown ==> Sync(u, rec, validPattern).abandoned == s.abandoned)
  {
    var u := Saved(s, rec);
    SyncFrame(u, rec, validPattern);
    hide Sync;
    assert Frame(s, u, {});
  }

  lemma NextFrame(s: State, e: Event)
    requires Inv(s) && Enabled(s, e)
    ensures Frame(s, Then(s, e), Touched(s, e))
    ensures !PausesOrStops(s, e) ==> Then(s, e).abandoned == s.abandoned
  {
    hide Fire, EndAttempt, BeginStep, ConcludeStep, RetryStep, Settle, Sync, StopStep, ResumeStep, TimeoutStep,
         GateLinked, RowsSound, TasksSound, RowsAgree, OpenRowsCarried, AbandonedSound, ObservationsSound,
         LogSound, LogBehind, TimersTracked, NoIdleSlot, GateInv, Frame, TheId, Acquire, Release, Resume;
    StoreUnique(s);
    match e
    case FireNow(slug, run) => FireFrame(s, s.store.schedules[TheId(s.store, slug)], run);
    case CronTick(sid, run) => FireFrame(s, s.cron[sid], run);
    case ResumeWaiter => GateWakes(s.gate, s.tasks, s.next); ResumeFrame(s);
    case Begin(t, ok) => BeginFrame(s, t, ok);
    case DispatchResolves(t, d) => AdmitFrame(s, t, d);
    case DispatchRejects(t, reason) => RejectFrame(s, t, reason);
    case TurnError(i, m) => if i in s.pending { TurnErrorFrame(s, i, m); } else { SameFrame(s); }
    case AgentEnd(i) => if i in s.pending { SettleFrame(s, i, s.Verdict(i)); } else { SameFrame(s); }
    case ObserveTimeout(i) => TimeoutSettles(s, i); SettleFrame(s, i, TimeoutOutcome("observe timeout"));
    case Conclude(t) => ConcludeFrame(s, t, s.outcomes[s.tasks[t].Instance()]);
    case ReleaseSlot(t) => ReleaseFrame(s, t);
    case RetryDue(t) => RetryFrame(s, t);
    case Delete(slug) => DeleteFrame(s, TheId(s.store, slug));
    case Save(rec, valid) => SaveFrame(s, rec, valid);
    case Stop => StopFrame(s);
  }

  lemma SameFrame(s: State)
    ensures Frame(s, s, {})
  {
  }

  // ---- What one event keeps of the other runs ----

  /** A row of another run stays as it is, or goes together with its schedule. */
  ghost predicate RowsKept(before: Store, after: Store, touched: set<Id>) {
    forall r :: r in before.runs && r !in touched ==>
      if r in after.runs then after.runs[r] == before.runs[r] else before.runs[r].sid !in after.schedules
  }

  /** A carrier of another run stays, at most let into its slot, or its run is abandoned, or has no row. */
  ghost predicate CarriersKept(s: State, u: State, touched: set<Id>) {
    forall t :: t in s.tasks && s.tasks[t].Carries() && s.tasks[t].run !in touched ==>
      || (CarriedBy(u.tasks, s.tasks[t].run, t) && StillAs(s.tasks[t], u.tasks[t]))
      || s.tasks[t].run in u.abandoned || s.tasks[t].run !in u.store.runs
  }

  predicate StillAs(before: Task, after: Task) {
    after == before || (before.phase == Gated && after == before.(phase := Slotted))
  }

  ghost predicate OthersKept(s: State, u: State, touched: set<Id>) {
    RowsKept(s.store, u.store, touched) && CarriersKept(s, u, touched)
  }

  lemma SameKept(s: State, u: State)
    requires u.tasks == s.tasks && u.store == s.store
    ensures OthersKept(s, u, {})
  {
  }

  lemma FireKept(s: State, rec: Schedule, run: Id)
    requires s.next !in s.tasks
    ensures OthersKept(s, Fire(s, rec, run), {run})
  {
  }

  /** The call itself has gone on. */
  lemma PhaseKept(s: State, u: State, t: Ticket)
    requires t in s.tasks && u.tasks.Keys >= s.tasks.Keys
    requires forall v :: v in s.tasks && v != t ==> u.tasks[v] == s.tasks[v]
    requires RowsKept(s.store, u.store, {s.tasks[t].run})
    ensures OthersKept(s, u, {s.tasks[t].run})
  {
  }

  lemma EndKept(s: State, t: Ticket, status: Status, error: Option<string>)
    requires t in s.tasks
    ensures OthersKept(s, EndAttempt(s, t, status, error), {s.tasks[t].run})
  {
    PhaseKept(s, EndAttempt(s, t, status, error), t);
  }

  lemma StartKept(s: State, u: State, v: State, run: Id)
    requires u == s.(store := s.store.(runs := u.store.runs)) && OthersKept(u, v, {run})
    requires forall r :: r in s.store.runs && r != run ==> r in u.store.runs && u.store.runs[r] == s.store.runs[r]
    ensures OthersKept(s, v, {run})
  {
  }

  lemma BeginKept(s: State, t: Ticket, ok: bool)
    requires t in s.tasks
    ensures OthersKept(s, BeginStep(s, t, ok), {s.tasks[t].run})
  {
    hide EndAttempt, BeginStep, OthersKept;
    var run := s.tasks[t].run;
    var u := RowStarted(s, s.tasks[t].rec.id, run);
    var v := EndAttempt(u, t, Skipped, Some("provider endpoint unavailable"));
    BeginStepIs(s, t, ok);
    PhaseKept(s, SetPhase(s, t, Releasing), t);
    PhaseKept(s, BeginAttempt(s, t), t);
    PhaseKept(u, BeginAttempt(u, t), t);
    StartKept(s, u, BeginAttempt(u, t), run);
    EndKept(u, t, Skipped, Some("provider endpoint unavailable"));
    StartKept(s, u, v, run);
  }

  lemma ConcludeKept(s: State, t: Ticket, o: Outcome)
    requires t in s.tasks && s.next !in s.tasks
    ensures OthersKept(s, ConcludeStep(s, t, o), {s.tasks[t].run})
  {
    hide EndAttempt, OthersKept, Retries;
    match o
    case OkOutcome => EndKept(s, t, Succeeded, None);
    case TimeoutOutcome(m) => EndKept(s, t, TimedOut, Some(m));
    case ErrorOutcome(m) =>
      PhaseKept(s, ArmRetry(s, t), t);
      EndKept(s, t, if IsTransient(s.cfg.classify(m)) then Failed else Skipped, Some(m));
  }

  lemma RejectKept(s: State, t: Ticket, reason: string)
    requires t in s.tasks
    ensures OthersKept(s, RejectStep(s, t, reason), {s.tasks[t].run})
  {
    hide EndAttempt;
    EndKept(Settle(s, s.tasks[t].Instance(), TimeoutOutcome("cancelled")), t, Failed, Some(reason));
  }

  /** Timers go, of abandoned runs or of runs whose rows are gone. */
  lemma ForgetKept(s: State, u: State, gone: set<Ticket>, touched: set<Id>)
    requires u.tasks == s.tasks - gone && RowsKept(s.store, u.store, touched)
    requires forall t :: t in gone && t in s.tasks && s.tasks[t].run !in touched ==>
               s.tasks[t].run in u.abandoned || s.tasks[t].run !in u.store.runs
    ensures OthersKept(s, u, touched)
  {
  }

  /** A waiting first attempt has no row, and the retries of a schedule that is gone have none any more. */
  lemma NoRowYet(s: State, t: Ticket)
    requires Inv(s) && t in s.tasks && s.tasks[t].Carries() && s.tasks[t].run in s.store.runs
    ensures s.tasks[t].phase == Gated ==> s.tasks[t].attempt > 0
    ensures s.store.runs[s.tasks[t].run].sid == s.tasks[t].rec.id && s.tasks[t].rec.id in s.store.schedules
  {
    CarrierFacts(s, t);
  }

  lemma AdmittedKept(s: State, u: State, t: Ticket)
    requires InPhase(s, t, Gated) && u.tasks == s.tasks[t := s.tasks[t].(phase := Slotted)] && u.store == s.store
    ensures OthersKept(s, u, {})
  {
  }

  lemma ResumeKept(s: State)
    requires Inv(s) && s.gate.woken != [] && InPhase(s, s.gate.woken[0], Gated)
    ensures OthersKept(s, ResumeStep(s), {})
  {
    hide Inv, Resume, OthersKept;
    var t := s.gate.woken[0];
    if s.tasks[t].run in s.store.runs {
      NoRowYet(s, t);
    }
    if s.shuttingDown {
      ForgetKept(s, ResumeStep(s), {t}, {});
    } else {
      AdmittedKept(s, ResumeStep(s), t);
    }
  }

  lemma RetryTasks(s: State, t: Ticket)
    requires t in s.tasks
    ensures var u, sid := RetryStep(s, t), s.tasks[t].rec.id;
      && u.store == s.store
      && (!s.shuttingDown && sid !in s.store.schedules ==>
            u.tasks == s.tasks - ({t} + (TimersOf(s, sid) - {t})))
  {
    hide Acquire;
  }

  lemma RetryKept(s: State, t: Ticket)
    requires Inv(s) && InPhase(s, t, Backoff)
    ensures OthersKept(s, RetryStep(s, t), {s.tasks[t].run})
  {
    hide Inv, Acquire, OthersKept, TimersOf;
    var sid := s.tasks[t].rec.id;
    var u := RetryStep(s, t);
    RetryTasks(s, t);
    if s.shuttingDown {
      ForgetKept(s, u, {t}, {s.tasks[t].run});
    } else if sid !in s.store.schedules {
      RowlessTimers(s, sid);
      ForgetKept(s, u, {t} + (TimersOf(s, sid) - {t}), {s.tasks[t].run});
    } else {
      PhaseKept(s, u, t);
    }
  }

  lemma RowlessTimers(s: State, sid: Id)
    requires Inv(s) && sid !in s.store.schedules
    ensures forall t :: t in TimersOf(s, sid) && t in s.tasks ==> s.tasks[t].run !in s.store.runs
  {
    forall t | t in TimersOf(s, sid) && t in s.tasks ensures s.tasks[t].run !in s.store.runs {
      TrackedIsBackoff(s, sid, t);
      TimerFacts(s, t);
    }
  }

  lemma DeleteKept(s: State, id: Id)
    requires Inv(s)
    ensures OthersKept(s, DeleteStep(s, id), {})
  {
    var u := DeleteStep(s, id);
    forall t | t in TimersOf(s, id) && t in s.tasks ensures s.tasks[t].run !in u.store.runs {
      TrackedIsBackoff(s, id, t);
      if s.tasks[t].run in s.store.runs {
        NoRowYet(s, t);
      }
    }
    hide Inv, TimersOf;
    ForgetKept(s, u, TimersOf(s, id), {});
  }

  lemma SaveKept(s: State, rec: Schedule, valid: bool)
    ensures OthersKept(s, Sync(Saved(s, rec), rec, valid), {})
  {
    var gone := if !rec.enabled || s.shuttingDown then TimersOf(s, rec.id) else {};
    ForgetKept(s, Sync(Saved(s, rec), rec, valid), gone, {});
  }

  lemma ReleaseKept(s: State, t: Ticket)
    requires InPhase(s, t, Releasing)
    ensures OthersKept(s, ReleaseStep(s, t), {})
  {
  }

  lemma StopKept(s: State)
    ensures OthersKept(s, StopStep(s), {})
  {
    hide AllTimers;
    ForgetKept(s, StopStep(s), AllTimers(s), {});
  }

  lemma NextKept(s: State, e: Event)
    requires Inv(s) && Enabled(s, e)
    ensures OthersKept(s, Then(s, e), Touched(s, e))
  {
    hide Fire, EndAttempt, BeginStep, RejectStep, ConcludeStep, RetryStep, Sync, StopStep, ResumeStep, DeleteStep,
         GateLinked, RowsSound, TasksSound, RowsAgree, OpenRowsCarried, AbandonedSound, ObservationsSound,
         LogSound, LogBehind, TimersTracked, NoIdleSlot, GateInv, OthersKept, TheId, Acquire, Release, Resume;
    StoreUnique(s);
    FreshTicket(s);
    var u := Then(s, e);
    match e
    case FireNow(slug, run) => FireKept(s, s.store.schedules[TheId(s.store, slug)], run);
    case CronTick(sid, run) => FireKept(s, s.cron[sid], run);
    case ResumeWaiter => GateWakes(s.gate, s.tasks, s.next); ResumeKept(s);
    case Begin(t, ok) => BeginKept(s, t, ok);
    case DispatchResolves(t, d) => PhaseKept(s, u, t);
    case DispatchRejects(t, reason) => RejectKept(s, t, reason);
    case TurnError(_, _) => SameKept(s, u);
    case AgentEnd(_) => SameKept(s, u);
    case ObserveTimeout(_) => SameKept(s, u);
    case Conclude(t) => ConcludeKept(s, t, s.outcomes[s.tasks[t].Instance()]);
    case ReleaseSlot(t) => ReleaseKept(s, t);
    case RetryDue(t) => RetryKept(s, t);
    case Delete(slug) => DeleteKept(s, TheId(s.store, slug));
    case Save(rec, valid) => SaveKept(s, rec, valid);
    case Stop => StopKept(s);
  }

  // ---- Consequences over runs ----

  ghost predicate NeverPausesOrStops(s: State, es: seq<Event>)
    requires Inv(s) && CanRun(s, es)
    decreases |es|
  {
    es == [] || (!PausesOrStops(s, es[0]) && NeverPausesOrStops(Then(s, es[0]), es[1..]))
  }

  /** Without a pause or a stop every open row of this process always has its carrier. */
  lemma {:induction false} EveryOpenRowMoves(s: State, es: seq<Event>, run: Id)
    requires Inv(s) && CanRun(s, es) && NeverPausesOrStops(s, es)
    requires s.abandoned == {} && run !in s.legacy
    ensures var u := Run(s, es);
      run in u.store.runs && !Terminal(u.store.runs[run].status) ==> Carried(u.tasks, run)
    decreases |es|
  {
    if es == [] {
      if run in s.store.runs && !Terminal(s.store.runs[run].status) {
        OpenWithoutCarrier(s, run);
      }
    } else {
      NextFrame(s, es[0]);
      EveryOpenRowMoves(Then(s, es[0]), es[1..], run);
    }
  }

  /** The run is over: nothing carries it, and if its row exists it is this one. */
  ghost predicate Over(s: State, run: Id, row: RunRow) {
    !Carried(s.tasks, run) && !FreshRun(s, run) && (run in s.store.runs ==> s.store.runs[run] == row)
  }

  /** An event only touches a fresh run or one that is being carried. */
  lemma TouchesLiveRuns(s: State, e: Event, run: Id)
    requires Inv(s) && Enabled(s, e) && run in Touched(s, e)
    ensures Carried(s.tasks, run) || FreshRun(s, run)
    ensures e.FireNow? || e.CronTick? || Carried(s.tasks, run)
  {
    hide Inv;
    match e
    case Begin(t, _) => assert CarriedBy(s.tasks, run, t);
    case DispatchResolves(t, _) => assert CarriedBy(s.tasks, run, t);
    case DispatchRejects(t, _) => assert CarriedBy(s.tasks, run, t);
    case Conclude(t) => assert CarriedBy(s.tasks, run, t);
    case RetryDue(t) => assert CarriedBy(s.tasks, run, t);
    case _ =>
  }

  lemma {:induction false} StillOver(s: State, es: seq<Event>, run: Id, row: RunRow)
    requires Inv(s) && CanRun(s, es) && Over(s, run, row)
    ensures Over(Run(s, es), run, row)
    decreases |es|
  {
    if es != [] {
      var u := Then(s, es[0]);
      NextFrame(s, es[0]);
      if run in Touched(s, es[0]) {
        TouchesLiveRuns(s, es[0], run);
      }
      assert Over(u, run, row) by {
        hide Inv, Next, Enabled, CanRun;
        forall t ensures !CarriedBy(u.tasks, run, t) {
          assert !CarriedBy(s.tasks, run, t);
        }
      }
      StillOver(u, es[1..], run, row);
    }
  }

  /** A run without a carrier never gets one again, and its row never changes:
      terminal rows stay as they are, and a retry dropped by a pause is never
      resumed, not even when the schedule is enabled again. */
  lemma OverIsForever(s: State, es: seq<Event>, run: Id)
    requires Inv(s) && CanRun(s, es) && run in s.store.runs && !Carried(s.tasks, run)
    ensures Over(Run(s, es), run, s.store.runs[run])
  {
    RunKnown(s, run);
    StillOver(s, es, run, s.store.runs[run]);
  }

  lemma RunKnown(s: State, run: Id)
    requires Inv(s) && run in s.store.runs
    ensures !FreshRun(s, run) && (Terminal(s.store.runs[run].status) ==> !Carried(s.tasks, run))
  {
    hide GateLinked, TasksSound, RowsAgree, OpenRowsCarried, AbandonedSound,
         ObservationsSound, LogSound, LogBehind, TimersTracked, NoIdleSlot, GateInv;
    if Carried(s.tasks, run) {
      var t :| CarriedBy(s.tasks, run, t);
      CarrierFacts(s, t);
    }
  }

  /** In particular, no event ever overwrites, re-admits or retries a terminal row. */
  lemma TerminalIsFinal(s: State, es: seq<Event>, run: Id)
    requires Inv(s) && CanRun(s, es) && run in s.store.runs && Terminal(s.store.runs[run].status)
    ensures var u := Run(s, es);
      !Carried(u.tasks, run) && (run in u.store.runs ==> u.store.runs[run] == s.store.runs[run])
  {
    RunKnown(s, run);
    OverIsForever(s, es, run);
  }

  /** A settled observation keeps its outcome: each promise settles at most once. */
  lemma {:induction false} SettlesOnce(s: State, es: seq<Event>, i: Instance)
    requires Inv(s) && CanRun(s, es) && i in s.outcomes
    ensures var u := Run(s, es);
      i in u.outcomes && u.outcomes[i] == s.outcomes[i] && i !in u.pending && i !in u.observeTimers
    decreases |es|
  {
    if es == [] {
      FreshTicket(s);
      TimersArePending(s);
    } else {
      NextFrame(s, es[0]);
      SettlesOnce(Then(s, es[0]), es[1..], i);
    }
  }

  lemma TimersArePending(s: State)
    requires Inv(s)
    ensures s.observeTimers == s.pending.Keys
  {
  }
}
