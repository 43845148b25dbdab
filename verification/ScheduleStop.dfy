/** Which runs can still be worked on, which events lose one, and what a stop does to those that wait. */
module ScheduleStop {
  import opened Basics
  import opened ScheduleTypes
  import opened ScheduleGate
  import opened ScheduleState
  import opened ScheduleInvariant
  import opened ScheduleRuns
  import opened ScheduleTheorems
  import opened ScheduleWaiting
  import opened ScheduleAbandonment

  /** A waiting call with at least as many others before it as there are slot holders. Each
      holder wakes one call when it is done, and a call that is turned away wakes nobody. */
  ghost predicate Stranded(g: Gate, t: Ticket) {
    exists k :: |g.holders| <= k < |g.queue| && g.queue[k] == t
  }

  /** The queue once so many of its first have been woken. */
  function Left(queue: seq<Ticket>, n: nat): seq<Ticket> {
    if n <= |queue| then queue[n..] else []
  }

  /** Slots are only given back, each time waking the next in the queue. */
  ghost predicate GateEmpties(g: Gate, h: Gate) {
    && h.holders <= g.holders && |h.holders| <= |g.holders|
    && h.queue == Left(g.queue, |g.holders| - |h.holders|)
  }

  /** Whoever holds a slot had it before, and works for the same run. */
  ghost predicate NobodyWentIn(s: Tasks, u: Tasks) {
    forall t :: t in u && u[t].HoldsSlot() ==>
      t in s && s[t].HoldsSlot() && u[t].run == s[t].run && (u[t].Carries() ==> s[t].Carries())
  }

  /** Whoever waits has waited before, and who does not wait any more was turned away. */
  ghost predicate OnlyTurnedAway(s: Tasks, u: Tasks, abandoned: set<Id>) {
    && (forall t :: t in u && u[t].phase == Gated ==> t in s && u[t] == s[t])
    && (forall t :: t in s && s[t].phase == Gated && s[t].attempt > 0 && !(t in u && u[t].phase == Gated) ==>
          s[t].run in abandoned)
  }

  /** The only new timers are for these runs. */
  ghost predicate NoTimersBut(s: Tasks, u: Tasks, armed: set<Id>) {
    forall t :: t in u && u[t].phase == Backoff ==> (t in s && u[t] == s[t]) || u[t].run in armed
  }

  ghost predicate WindsDown(s: State, u: State) {
    && u.shuttingDown && s.abandoned <= u.abandoned
    && GateEmpties(s.gate, u.gate) && NobodyWentIn(s.tasks, u.tasks) && OnlyTurnedAway(s.tasks, u.tasks, u.abandoned)
  }

  // ---- One event ----

  lemma LeftTwice(queue: seq<Ticket>, m: nat, n: nat)
    ensures Left(Left(queue, m), n) == Left(queue, m + n)
  {
  }

  lemma WindsTrans(s: State, u: State, v: State)
    requires WindsDown(s, u) && WindsDown(u, v)
    ensures WindsDown(s, v)
  {
    LeftTwice(s.gate.queue, |s.gate.holders| - |u.gate.holders|, |u.gate.holders| - |v.gate.holders|);
  }

  /** Neither the gate nor who waits has changed. */
  lemma SameGate(s: State, u: State)
    requires u.gate == s.gate && u.shuttingDown && s.abandoned <= u.abandoned && NobodyWentIn(s.tasks, u.tasks)
    requires forall t :: InPhase(s, t, Gated) || InPhase(u, t, Gated) ==>
               t in s.tasks && t in u.tasks && u.tasks[t] == s.tasks[t]
    ensures WindsDown(s, u)
  {
  }

  /** A slot holder has gone on, and nothing else has changed that matters here. */
  ghost predicate HolderMoved(s: State, u: State, t: Ticket) {
    && t in s.tasks && t in u.tasks && u.tasks == s.tasks[t := s.tasks[t].(phase := u.tasks[t].phase)]
    && s.tasks[t].HoldsSlot() && u.tasks[t].HoldsSlot() && (u.tasks[t].Carries() ==> s.tasks[t].Carries())
    && u.gate == s.gate && u.shuttingDown == s.shuttingDown && u.abandoned == s.abandoned
  }

  lemma MovedWinds(s: State, u: State, t: Ticket)
    requires HolderMoved(s, u, t) && s.shuttingDown
    ensures WindsDown(s, u) && NoTimersBut(s.tasks, u.tasks, {})
  {
    SameGate(s, u);
  }

  lemma PhaseMoves(s: State, u: State, t: Ticket, phase: Phase)
    requires t in s.tasks && s.tasks[t].HoldsSlot() && s.tasks[t].(phase := phase).HoldsSlot()
    requires phase == Releasing || s.tasks[t].Carries()
    requires u.tasks == SetPhase(s, t, phase).tasks && u.gate == s.gate
    requires u.shuttingDown == s.shuttingDown && u.abandoned == s.abandoned
    ensures HolderMoved(s, u, t)
  {
  }

  lemma EndMoves(s: State, t: Ticket, status: Status, error: Option<string>)
    requires t in s.tasks && s.tasks[t].HoldsSlot()
    ensures HolderMoved(s, EndAttempt(s, t, status, error), t)
  {
    hide HolderMoved;
    PhaseMoves(s, EndAttempt(s, t, status, error), t, Releasing);
  }

  lemma BeginMoves(s: State, t: Ticket, ok: bool)
    requires InPhase(s, t, Slotted)
    ensures HolderMoved(s, BeginStep(s, t, ok), t)
  {
    hide EndAttempt, BeginStep, HolderMoved;
    var u := RowStarted(s, s.tasks[t].rec.id, s.tasks[t].run);
    BeginStepIs(s, t, ok);
    PhaseMoves(s, SetPhase(s, t, Releasing), t, Releasing);
    PhaseMoves(s, BeginAttempt(s, t), t, Dispatching);
    PhaseMoves(s, BeginAttempt(u, t), t, Dispatching);
    EndMoves(u, t, Skipped, Some("provider endpoint unavailable"));
    SameButStore(s, u, EndAttempt(u, t, Skipped, Some("provider endpoint unavailable")), t);
  }

  lemma SameButStore(s: State, u: State, v: State, t: Ticket)
    requires u == s.(store := u.store) && HolderMoved(u, v, t)
    ensures HolderMoved(s, v, t)
  {
  }

  lemma AdmitMoves(s: State, t: Ticket, d: string)
    requires InPhase(s, t, Dispatching)
    ensures HolderMoved(s, AdmitStep(s, t, d), t)
  {
  }

  lemma RejectMoves(s: State, t: Ticket, reason: string)
    requires InPhase(s, t, Dispatching)
    ensures HolderMoved(s, RejectStep(s, t, reason), t)
  {
    hide EndAttempt;
    EndMoves(Settle(s, s.tasks[t].Instance(), TimeoutOutcome("cancelled")), t, Failed, Some(reason));
  }

  lemma ArmWinds(s: State, t: Ticket)
    requires s.shuttingDown && InPhase(s, t, Observing) && s.next !in s.tasks
    ensures WindsDown(s, ArmRetry(s, t)) && NoTimersBut(s.tasks, ArmRetry(s, t).tasks, {s.tasks[t].run})
  {
    SameGate(s, ArmRetry(s, t));
  }

  predicate CallsForRetry(s: State, t: Ticket, o: Outcome)
    requires t in s.tasks
  {
    o.ErrorOutcome? && Retries(s.cfg, s.tasks[t], o.error)
  }

  /** The run for which the event arms a timer. */
  function ArmedBy(s: State, e: Event): set<Id> {
    if e.Conclude? && e.ticket in s.tasks && s.tasks[e.ticket].Instance() in s.outcomes
       && CallsForRetry(s, e.ticket, s.outcomes[s.tasks[e.ticket].Instance()])
    then {s.tasks[e.ticket].run} else {}
  }

  lemma ConcludeWinds(s: State, t: Ticket, o: Outcome)
    requires s.shuttingDown && InPhase(s, t, Observing) && s.next !in s.tasks
    ensures WindsDown(s, ConcludeStep(s, t, o))
    ensures NoTimersBut(s.tasks, ConcludeStep(s, t, o).tasks, if CallsForRetry(s, t, o) then {s.tasks[t].run} else {})
  {
    hide EndAttempt, ArmRetry, WindsDown, HolderMoved, Retries, NoTimersBut;
    match o
    case OkOutcome => EndMoves(s, t, Succeeded, None); MovedWinds(s, EndAttempt(s, t, Succeeded, None), t);
    case TimeoutOutcome(m) =>
      EndMoves(s, t, TimedOut, Some(m));
      MovedWinds(s, EndAttempt(s, t, TimedOut, Some(m)), t);
    case ErrorOutcome(m) =>
      var status := if IsTransient(s.cfg.classify(m)) then Failed else Skipped;
      ArmWinds(s, t);
      EndMoves(s, t, status, Some(m));
      MovedWinds(s, EndAttempt(s, t, status, Some(m)), t);
  }

  /** The woken caller is turned away. */
  lemma ResumeWinds(s: State)
    requires s.shuttingDown && s.gate.woken != [] && InPhase(s, s.gate.woken[0], Gated)
    ensures WindsDown(s, ResumeStep(s)) && NoTimersBut(s.tasks, ResumeStep(s).tasks, {})
  {
  }

  lemma ReleaseWinds(s: State, t: Ticket)
    requires s.shuttingDown && InPhase(s, t, Releasing) && t in s.gate.holders
    ensures WindsDown(s, ReleaseStep(s, t)) && NoTimersBut(s.tasks, ReleaseStep(s, t).tasks, {})
  {
    assert |s.gate.holders - {t}| == |s.gate.holders| - 1;
  }

  /** Timers go, and who waits or holds a slot stays. */
  lemma ForgetWinds(s: State, u: State, gone: set<Ticket>)
    requires u.shuttingDown && u.gate == s.gate && s.abandoned <= u.abandoned && u.tasks == s.tasks - gone
    requires forall t :: t in gone ==> InPhase(s, t, Backoff)
    ensures WindsDown(s, u) && NoTimersBut(s.tasks, u.tasks, {})
  {
    SameGate(s, u);
  }

  lemma SameWinds(s: State, u: State)
    requires s.shuttingDown && u == s.(pending := u.pending, observeTimers := u.observeTimers, outcomes := u.outcomes)
    ensures WindsDown(s, u) && NoTimersBut(s.tasks, u.tasks, {})
  {
    SameGate(s, u);
  }

  lemma RetryWinds(s: State, t: Ticket)
    requires s.shuttingDown && InPhase(s, t, Backoff)
    ensures WindsDown(s, RetryStep(s, t)) && NoTimersBut(s.tasks, RetryStep(s, t).tasks, {})
  {
    ForgetWinds(s, RetryStep(s, t), {t});
  }

  lemma AllTimersAreBackoff(s: State)
    requires Inv(s)
    ensures forall t :: t in AllTimers(s) ==> InPhase(s, t, Backoff)
    ensures forall sid, t :: t in TimersOf(s, sid) ==> InPhase(s, t, Backoff)
  {
    forall sid, t | t in TimersOf(s, sid) ensures InPhase(s, t, Backoff) {
      TrackedIsBackoff(s, sid, t);
    }
    forall t | t in AllTimers(s) ensures InPhase(s, t, Backoff) {
      var sid :| sid in s.retryTimers && t in s.retryTimers[sid];
      TrackedIsBackoff(s, sid, t);
    }
  }

  lemma HolderInGate(s: State, t: Ticket)
    requires Inv(s) && t in s.tasks && s.tasks[t].HoldsSlot()
    ensures t in s.gate.holders
  {
  }

  /** A stop, or any event after one. */
  lemma NextWinds(s: State, e: Event)
    requires Inv(s) && Enabled(s, e) && (s.shuttingDown || e.Stop?)
    ensures WindsDown(s, Then(s, e)) && NoTimersBut(s.tasks, Then(s, e).tasks, ArmedBy(s, e))
  {
    hide CallsForRetry, NoTimersBut, EndAttempt, BeginStep, AdmitStep, RejectStep, ConcludeStep, RetryStep,
         Settle, TimeoutStep, ReleaseStep, ResumeStep, WindsDown, TheId, Acquire, Release, Resume, TimersOf,
         AllTimers, RunsOf, HolderMoved,
         GateLinked, RowsSound, TasksSound, RowsAgree, OpenRowsCarried, AbandonedSound, ObservationsSound,
         LogSound, LogBehind, TimersTracked, NoIdleSlot, GateInv;
    StoreUnique(s);
    AllTimersAreBackoff(s);
    FreshTicket(s);
    var u := Then(s, e);
    match e
    case FireNow(_, _) => SameWinds(s, u);
    case CronTick(_, _) => SameWinds(s, u);
    case ResumeWaiter => GateWakes(s.gate, s.tasks, s.next); ResumeWinds(s);
    case Begin(t, ok) => BeginMoves(s, t, ok); MovedWinds(s, u, t);
    case DispatchResolves(t, d) => AdmitMoves(s, t, d); MovedWinds(s, u, t);
    case DispatchRejects(t, reason) => RejectMoves(s, t, reason); MovedWinds(s, u, t);
    case TurnError(_, _) => SameWinds(s, u);
    case AgentEnd(_) => SameWinds(s, u);
    case ObserveTimeout(i) => TimeoutChanges(s, i); SameWinds(s, u);
    case Conclude(t) => ConcludeWinds(s, t, s.outcomes[s.tasks[t].Instance()]);
    case ReleaseSlot(t) => HolderInGate(s, t); ReleaseWinds(s, t);
    case RetryDue(t) => RetryWinds(s, t);
    case Delete(slug) => ForgetWinds(s, u, TimersOf(s, TheId(s.store, slug)));
    case Save(rec, _) => SaveWinds(s, rec); ForgetWinds(s, u, TimersOf(s, rec.id));
    case Stop => ForgetWinds(s, u, AllTimers(s));
  }

  lemma TimeoutChanges(s: State, i: Instance)
    ensures var u := TimeoutStep(s, i);
      u == s.(pending := u.pending, observeTimers := u.observeTimers, outcomes := u.outcomes)
  {
  }

  lemma SaveWinds(s: State, rec: Schedule)
    ensures TimersOf(Saved(s, rec), rec.id) == TimersOf(s, rec.id)
  {
  }

  // ---- All events from then on ----

  lemma {:induction false} RunWinds(s: State, es: seq<Event>)
    requires Inv(s) && CanRun(s, es) && s.shuttingDown
    ensures WindsDown(s, Run(s, es))
    decreases |es|
  {
    if es == [] {
      SameWinds(s, s);
    } else {
      var u := Then(s, es[0]);
      NextWinds(s, es[0]);
      assert u.shuttingDown;
      hide Inv, Then, Enabled, WindsDown;
      RunWinds(u, es[1..]);
      WindsTrans(s, u, Run(u, es[1..]));
    }
  }

  /** Whoever is behind too many others in the queue is never woken: it waits for good. Of the
      others, all have been turned away as soon as the manager has come to rest, and those that
      were retries are abandoned. Both can be told before the stop. */
  lemma StopDecides(s: State, es: seq<Event>, t: Ticket)
    requires Inv(s) && Enabled(s, Stop) && CanRun(Then(s, Stop), es) && InPhase(s, t, Gated)
    ensures var u := Run(Then(s, Stop), es);
      if Stranded(s.gate, t) then
        && InPhase(u, t, Gated) && u.tasks[t] == s.tasks[t] && s.tasks[t].run !in u.abandoned
        && (s.tasks[t].run in u.store.runs ==> u.store.runs[s.tasks[t].run].status == Queued)
      else
        u.gate.holders == {} && u.gate.woken == [] ==>
          !InPhase(u, t, Gated) && (s.tasks[t].attempt > 0 ==> s.tasks[t].run in u.abandoned)
  {
    hide Inv, Then, CanRun, Run, Stranded, WindsDown;
    var v := Then(s, Stop);
    var u := Run(v, es);
    NextWinds(s, Stop);
    WindsStopped(s, v);
    RunWinds(v, es);
    WindsTrans(s, v, u);
    if Stranded(s.gate, t) {
      StrandedStays(s, u, t);
      InLineIsGated(u, t);
    } else if u.gate.holders == {} && u.gate.woken == [] {
      if InPhase(u, t, Gated) {
        GatedIsInLine(u, t);
        QueuedWasStranded(s, u, t);
      }
      if s.tasks[t].attempt > 0 {
        WasTurnedAway(s, u, t);
      }
    }
  }

  lemma WindsStopped(s: State, u: State)
    requires WindsDown(s, u)
    ensures u.shuttingDown
  {
  }

  lemma WasTurnedAway(s: State, u: State, t: Ticket)
    requires WindsDown(s, u) && InPhase(s, t, Gated) && !InPhase(u, t, Gated) && s.tasks[t].attempt > 0
    ensures s.tasks[t].run in u.abandoned
  {
  }

  lemma StrandedStays(s: State, u: State, t: Ticket)
    requires WindsDown(s, u) && Stranded(s.gate, t) && InPhase(s, t, Gated)
    ensures t in u.gate.queue && Stranded(u.gate, t)
    ensures InPhase(u, t, Gated) ==> u.tasks[t] == s.tasks[t]
  {
    var k :| |s.gate.holders| <= k < |s.gate.queue| && s.gate.queue[k] == t;
    assert u.gate.queue[k - (|s.gate.holders| - |u.gate.holders|)] == t;
  }

  /** At rest whoever is left in the queue has been stranded from the start. */
  lemma QueuedWasStranded(s: State, u: State, t: Ticket)
    requires WindsDown(s, u) && u.gate.holders == {} && t in u.gate.queue
    ensures Stranded(s.gate, t)
  {
    var j :| 0 <= j < |u.gate.queue| && u.gate.queue[j] == t;
    assert s.gate.queue[j + |s.gate.holders|] == t;
  }

  lemma InLineIsGated(s: State, t: Ticket)
    requires Inv(s) && t in s.gate.queue
    ensures InPhase(s, t, Gated) && s.tasks[t].run !in s.abandoned
    ensures s.tasks[t].run in s.store.runs ==> s.store.runs[s.tasks[t].run].status == Queued
  {
    assert s.tasks[t].Carries();
    CarrierFacts(s, t);
  }

  // ---- Which runs can still be worked on ----

  /** A call of the run holds a slot. */
  ghost predicate Working(s: State, run: Id) {
    exists t :: CarriedBy(s.tasks, run, t) && s.tasks[t].HoldsSlot()
  }

  /** The run has a call or a timer, and that holds a slot already or can still get one. */
  ghost predicate Movable(s: State, run: Id) {
    exists t :: CarriedBy(s.tasks, run, t) && (s.tasks[t].HoldsSlot() || !s.shuttingDown)
  }

  ghost predicate OpenRow(s: State, run: Id) {
    run in s.store.runs && !Terminal(s.store.runs[run].status)
  }

  ghost predicate MayWork(s: State, run: Id)
    requires Inv(s)
  {
    exists es :: CanRun(s, es) && Working(Run(s, es), run)
  }

  lemma StoppedStays(s: State, u: State, run: Id)
    requires WindsDown(s, u) && Working(u, run)
    ensures Working(s, run)
  {
    var t :| CarriedBy(u.tasks, run, t) && u.tasks[t].HoldsSlot();
    assert CarriedBy(s.tasks, run, t);
  }

  lemma ImmovableNeverWorks(s: State, es: seq<Event>, run: Id)
    requires Inv(s) && CanRun(s, es) && run in s.store.runs && !Movable(s, run)
    ensures !Working(Run(s, es), run)
  {
    var u := Run(s, es);
    hide Inv, CanRun, Run, Then;
    if s.shuttingDown {
      RunWinds(s, es);
      if Working(u, run) {
        StoppedStays(s, u, run);
      }
    } else {
      OverIsForever(s, es, run);
    }
  }

  /** A retry whose timer fires gets into the gate: its row, and so its schedule, is still there. */
  lemma DueEnters(s: State, t: Ticket)
    requires Inv(s) && InPhase(s, t, Backoff) && !s.shuttingDown && OpenRow(s, s.tasks[t].run)
    ensures Enabled(s, RetryDue(t)) && (Quiet(s) ==> InOrder(s, RetryDue(t)))
    ensures Entered(s, Then(s, RetryDue(t)), t)
  {
    hide Inv, Quiet, RetryStep, Entered;
    TimerFacts(s, t);
    ThenRetry(s, t);
    RetryEnters(s, t);
  }

  ghost predicate Entered(s: State, u: State, t: Ticket)
    requires t in s.tasks
  {
    && u.cfg == s.cfg && !u.shuttingDown && CarriedBy(u.tasks, s.tasks[t].run, t)
    && (InPhase(u, t, Gated) || InPhase(u, t, Slotted))
  }

  lemma RetryEnters(s: State, t: Ticket)
    requires InPhase(s, t, Backoff) && !s.shuttingDown && s.tasks[t].rec.id in s.store.schedules
    ensures Entered(s, RetryStep(s, t), t)
  {
    hide Acquire;
  }

  lemma ThenRetry(s: State, t: Ticket)
    requires Inv(s) && InPhase(s, t, Backoff)
    ensures Then(s, RetryDue(t)) == RetryStep(s, t)
  {
    hide Inv, RetryStep;
    StoreUnique(s);
  }

  lemma WorksAtLast(s: State, t: Ticket) returns (es: seq<Event>, u: State)
    requires Inv(s) && s.cfg.maxConcurrentRuns >= 1 && t in s.tasks && s.tasks[t].Carries()
    requires s.tasks[t].HoldsSlot() || (!s.shuttingDown && s.tasks[t].phase == Gated)
    ensures Reaches(s, es, u) && Working(u, s.tasks[t].run)
  {
    hide Inv, Reaches;
    if s.tasks[t].phase == Gated {
      es, u := GetsSlot(s, t);
      assert CarriedBy(u.tasks, s.tasks[t].run, t);
    } else {
      ReachesNone(s);
      es, u := [], s;
      assert CarriedBy(u.tasks, s.tasks[t].run, t);
    }
  }

  /** What becomes of the runs that do not end: an open one can still be worked on if and only
      if it has a call that holds a slot, or the manager has not been stopped and it has a
      waiting call or an armed timer. Between two turns of the event loop, in order. */
  lemma MovesOnIff(s: State, run: Id)
    requires Inv(s) && s.cfg.maxConcurrentRuns >= 1 && OpenRow(s, run)
    ensures MayWork(s, run) <==> Movable(s, run)
    ensures Quiet(s) && Movable(s, run) ==> exists es, u :: Reaches(s, es, u) && Working(u, run)
  {
    if MayWork(s, run) && !Movable(s, run) {
      var es :| CanRun(s, es) && Working(Run(s, es), run);
      ImmovableNeverWorks(s, es, run);
    }
    if Movable(s, run) {
      MovableWorks(s, run);
    }
  }

  lemma MovableWorks(s: State, run: Id)
    requires Inv(s) && s.cfg.maxConcurrentRuns >= 1 && OpenRow(s, run) && Movable(s, run)
    ensures MayWork(s, run)
    ensures Quiet(s) ==> exists es, u :: Reaches(s, es, u) && Working(u, run)
  {
    hide Inv, Then, Enabled, InOrder, Quiet, Working, Reaches, OpenRow;
    var t :| CarriedBy(s.tasks, run, t) && (s.tasks[t].HoldsSlot() || !s.shuttingDown);
    if s.tasks[t].phase == Backoff {
      DueWorks(s, t);
    } else {
      var es, u := WorksAtLast(s, t);
      ReachedIsRun(s, es, u);
    }
  }

  lemma DueWorks(s: State, t: Ticket)
    requires Inv(s) && s.cfg.maxConcurrentRuns >= 1 && InPhase(s, t, Backoff) && !s.shuttingDown
    requires OpenRow(s, s.tasks[t].run)
    ensures MayWork(s, s.tasks[t].run)
    ensures Quiet(s) ==> exists es, u :: Reaches(s, es, u) && Working(u, s.tasks[t].run)
  {
    hide Inv, Then, Enabled, InOrder, Quiet, Working, Reaches, OpenRow;
    DueEnters(s, t);
    var v := Then(s, RetryDue(t));
    var es, u := WorksAtLast(v, t);
    ReachedIsRun(v, es, u);
    RunsFirst(s, RetryDue(t), es);
    if Quiet(s) {
      ReachesFirst(s, RetryDue(t), es, u);
    }
  }

  lemma ReachedIsRun(s: State, es: seq<Event>, u: State)
    requires Reaches(s, es, u)
    ensures Inv(s) && CanRun(s, es) && Run(s, es) == u
  {
  }

  lemma RunsFirst(s: State, e: Event, es: seq<Event>)
    requires Inv(s) && Enabled(s, e) && CanRun(Then(s, e), es)
    ensures CanRun(s, [e] + es) && Run(s, [e] + es) == Run(Then(s, e), es)
  {
    hide Inv, Then, Enabled;
    assert ([e] + es)[0] == e && ([e] + es)[1..] == es;
  }

  // ---- When a run is lost ----

  /** The runs this event takes all hope from: those with a timer armed for the schedule being
      paused; at a stop all that wait for a slot or for a timer; after a stop one whose outcome
      asks for a retry. */
  function Loses(s: State, e: Event): set<Id> {
    match e
    case Save(rec, _) => if !rec.enabled then RunsOf(s, TimersOf(s, rec.id)) else {}
    case Stop => set t | t in s.tasks && s.tasks[t].phase in {Gated, Backoff} :: s.tasks[t].run
    case Conclude(_) => if s.shuttingDown then ArmedBy(s, e) else {}
    case _ => {}
  }

  /** Exactly these open runs, and no others, stop being movable. */
  lemma LosesExactly(s: State, e: Event, run: Id)
    requires Inv(s) && Enabled(s, e) && OpenRow(Then(s, e), run)
    ensures Movable(Then(s, e), run) <==> Movable(s, run) && run !in Loses(s, e)
  {
    hide Inv, Then, Enabled, OpenRow, Loses, Movable;
    if s.shuttingDown {
      LosesAfterStop(s, e, run);
    } else if e.Stop? {
      LosesAtStop(s, run);
    } else {
      LosesBefore(s, e, run);
    }
  }

  lemma LosesAtStop(s: State, run: Id)
    requires Inv(s) && !s.shuttingDown
    ensures Enabled(s, Stop) && (Movable(Then(s, Stop), run) <==> Movable(s, run) && run !in Loses(s, Stop))
  {
    AllTimersAreBackoff(s);
    UniqueCarriers(s, run);
    hide Inv, Then, Movable, Loses;
    StopTasks(s);
    StopSplits(s, Then(s, Stop), AllTimers(s), run);
  }

  lemma StopSplits(s: State, u: State, timers: set<Ticket>, run: Id)
    requires !s.shuttingDown && u.shuttingDown && u.tasks == s.tasks - timers
    requires forall t :: t in timers ==> InPhase(s, t, Backoff)
    requires forall t, v :: CarriedBy(s.tasks, run, t) && CarriedBy(s.tasks, run, v) ==> t == v
    ensures Movable(u, run) <==> Movable(s, run) && run !in Loses(s, Stop)
  {
    if run in Loses(s, Stop) {
      var t :| t in s.tasks && s.tasks[t].phase in {Gated, Backoff} && s.tasks[t].run == run;
      assert CarriedBy(s.tasks, run, t);
    } else if t :| CarriedBy(s.tasks, run, t) {
      assert s.tasks[t].HoldsSlot() && CarriedBy(u.tasks, run, t);
    }
    assert forall t :: CarriedBy(u.tasks, run, t) ==> CarriedBy(s.tasks, run, t);
  }

  lemma UniqueCarriers(s: State, run: Id)
    requires Inv(s)
    ensures forall t, u :: CarriedBy(s.tasks, run, t) && CarriedBy(s.tasks, run, u) ==> t == u
  {
  }

  lemma StopTasks(s: State)
    requires Inv(s)
    ensures Enabled(s, Stop) && Then(s, Stop).shuttingDown && Then(s, Stop).tasks == s.tasks - AllTimers(s)
  {
    hide Inv, AllTimers;
    StoreUnique(s);
  }

  // ---- Before a stop ----

  lemma RunningCarries(s: State, run: Id)
    requires !s.shuttingDown
    ensures Movable(s, run) <==> Carried(s.tasks, run)
  {
  }

  lemma ConcludeGoesOn(s: State, t: Ticket, o: Outcome)
    requires InPhase(s, t, Observing) && !s.shuttingDown
    ensures !ConcludeStep(s, t, o).shuttingDown
  {
    hide EndAttempt, ArmRetry, HolderMoved, Retries;
    match o
    case OkOutcome => EndGoesOn(s, t, Succeeded, None);
    case TimeoutOutcome(m) => EndGoesOn(s, t, TimedOut, Some(m));
    case ErrorOutcome(m) =>
      ArmGoesOn(s, t);
      EndGoesOn(s, t, if IsTransient(s.cfg.classify(m)) then Failed else Skipped, Some(m));
  }

  lemma EndGoesOn(s: State, t: Ticket, status: Status, error: Option<string>)
    requires t in s.tasks
    ensures EndAttempt(s, t, status, error).shuttingDown == s.shuttingDown
  {
  }

  lemma ArmGoesOn(s: State, t: Ticket)
    requires t in s.tasks
    ensures ArmRetry(s, t).shuttingDown == s.shuttingDown
  {
  }

  lemma RetryGoesOn(s: State, t: Ticket)
    requires t in s.tasks
    ensures RetryStep(s, t).shuttingDown == s.shuttingDown
  {
    hide Acquire, TimersOf;
  }

  lemma FireGoesOn(s: State, rec: Schedule, run: Id)
    ensures Fire(s, rec, run).shuttingDown == s.shuttingDown
  {
  }

  lemma SettleGoesOn(s: State, i: Instance, o: Outcome)
    ensures Settle(s, i, o).shuttingDown == s.shuttingDown
  {
  }

  lemma DeleteGoesOn(s: State, id: Id)
    ensures DeleteStep(s, id).shuttingDown == s.shuttingDown
  {
  }

  lemma SyncGoesOn(s: State, rec: Schedule, valid: bool)
    ensures Sync(s, rec, valid).shuttingDown == s.shuttingDown
  {
  }

  lemma OnlyStopStops(s: State, e: Event)
    requires Inv(s) && Enabled(s, e) && !e.Stop? && !s.shuttingDown
    ensures !Then(s, e).shuttingDown
  {
    hide BeginStep, RejectStep, ConcludeStep, RetryStep, Inv, Acquire, Release, Resume, TheId, TimersOf, RunsOf,
         Fire, Settle, DeleteStep, Sync;
    StoreUnique(s);
    match e
    case ResumeWaiter => WokenWaits(s);
    case Begin(t, ok) => BeginMoves(s, t, ok);
    case DispatchRejects(t, reason) => RejectMoves(s, t, reason);
    case Conclude(t) => ConcludeGoesOn(s, t, s.outcomes[s.tasks[t].Instance()]);
    case RetryDue(t) => RetryGoesOn(s, t);
    case FireNow(slug, run) => FireGoesOn(s, s.store.schedules[TheId(s.store, slug)], run);
    case CronTick(sid, run) => FireGoesOn(s, s.cron[sid], run);
    case AgentEnd(i) => SettleGoesOn(s, i, if i in s.pending then s.Verdict(i) else OkOutcome);
    case Delete(slug) => DeleteGoesOn(s, TheId(s.store, slug));
    case Save(rec, valid) => SyncGoesOn(Saved(s, rec), rec, valid);
    case _ =>
  }

  lemma FireKeepsStore(s: State, e: Event)
    requires Inv(s) && Enabled(s, e) && (e.FireNow? || e.CronTick?)
    ensures Then(s, e).store == s.store
  {
    hide Inv, Acquire, TheId;
    StoreUnique(s);
  }

  /** A row that is open after an event was open before it, or has just been started. */
  lemma OpenBefore(s: State, e: Event, run: Id)
    requires Inv(s) && Enabled(s, e) && OpenRow(Then(s, e), run)
    ensures OpenRow(s, run) || Carried(s.tasks, run)
  {
    NextFrame(s, e);
    hide Inv, Then, Carried, Touched;
    if run in Touched(s, e) {
      TouchesLiveRuns(s, e, run);
      if e.FireNow? || e.CronTick? {
        FireKeepsStore(s, e);
      }
    }
  }

  /** An open or carried run of this process has its carrier unless its retry was dropped. */
  lemma CarriedUnlessDropped(s: State, run: Id)
    requires Inv(s) && (OpenRow(s, run) || Carried(s.tasks, run))
    ensures Carried(s.tasks, run) <==> run !in s.legacy && run !in s.abandoned
  {
    if Carried(s.tasks, run) {
      var t :| CarriedBy(s.tasks, run, t);
      CarrierFacts(s, t);
    } else {
      OpenWithoutCarrier(s, run);
    }
  }

  lemma LosesBefore(s: State, e: Event, run: Id)
    requires Inv(s) && Enabled(s, e) && OpenRow(Then(s, e), run) && !s.shuttingDown && !e.Stop?
    ensures Movable(Then(s, e), run) <==> Movable(s, run) && run !in Loses(s, e)
  {
    hide Inv, Then, Enabled, OpenRow, Movable, Carried;
    var u := Then(s, e);
    OnlyStopStops(s, e);
    OpenBefore(s, e, run);
    CarriedUnlessDropped(s, run);
    CarriedUnlessDropped(u, run);
    NextFrame(s, e);
    AbandonsExactly(s, e);
    RunningCarries(s, run);
    RunningCarries(u, run);
    assert Loses(s, e) == Drops(s, e);
  }

  // ---- After a stop ----

  lemma StoppedWorks(s: State, run: Id)
    requires s.shuttingDown
    ensures Movable(s, run) <==> Working(s, run)
  {
  }

  lemma WaiterWorksNot(s: State, t: Ticket)
    requires Inv(s) && (InPhase(s, t, Gated) || InPhase(s, t, Backoff))
    ensures !Working(s, s.tasks[t].run)
  {
    UniqueCarriers(s, s.tasks[t].run);
    hide Inv;
    assert CarriedBy(s.tasks, s.tasks[t].run, t);
  }

  lemma WaitersAreLost(s: State, e: Event, run: Id)
    requires Inv(s) && Enabled(s, e) && s.shuttingDown && !e.Conclude? && run in Loses(s, e) + Drops(s, e)
    ensures !Working(s, run)
  {
    AllTimersAreBackoff(s);
    if e.ResumeWaiter? {
      GateWakes(s.gate, s.tasks, s.next);
    }
    hide Inv, Enabled, TimersOf, AllTimers, Working;
    var t := Waiter(s, e, run);
    WaiterWorksNot(s, t);
  }

  lemma Waiter(s: State, e: Event, run: Id) returns (t: Ticket)
    requires s.shuttingDown && !e.Conclude? && run in Loses(s, e) + Drops(s, e)
    requires e.ResumeWaiter? && s.gate.woken != [] ==> InPhase(s, s.gate.woken[0], Gated)
    requires e.RetryDue? ==> InPhase(s, e.ticket, Backoff)
    requires forall x :: x in AllTimers(s) ==> InPhase(s, x, Backoff)
    requires forall sid, x :: x in TimersOf(s, sid) ==> InPhase(s, x, Backoff)
    ensures t in s.tasks && s.tasks[t].run == run && (InPhase(s, t, Gated) || InPhase(s, t, Backoff))
  {
    match e
    case ResumeWaiter => t := s.gate.woken[0];
    case RetryDue(due) => t := due;
    case Save(rec, _) => t :| t in TimersOf(s, rec.id) && t in s.tasks && s.tasks[t].run == run;
    case Stop =>
      hide AllTimers;
      t :| t in s.tasks && s.tasks[t].run == run && (InPhase(s, t, Gated) || InPhase(s, t, Backoff));
    case _ =>
  }

  /** The concluded attempt leaves only a timer. */
  lemma AskingIsLost(s: State, c: Ticket, run: Id)
    requires Inv(s) && Enabled(s, Conclude(c)) && s.shuttingDown && run in ArmedBy(s, Conclude(c))
    ensures !Working(Then(s, Conclude(c)), run)
  {
    hide Inv, Then, Enabled, ArmedBy;
    var u := Then(s, Conclude(c));
    NextWinds(s, Conclude(c));
    UniqueCarriers(s, run);
    ArmedReleases(s, c, run);
    assert forall t :: CarriedBy(u.tasks, run, t) && u.tasks[t].HoldsSlot() ==> CarriedBy(s.tasks, run, t);
  }

  lemma ArmedReleases(s: State, c: Ticket, run: Id)
    requires Inv(s) && Enabled(s, Conclude(c)) && run in ArmedBy(s, Conclude(c))
    ensures CarriedBy(s.tasks, run, c) && InPhase(Then(s, Conclude(c)), c, Releasing)
  {
    hide Inv, Then, ArmRetry, EndAttempt, Retries;
    FreshTicket(s);
    ThenConclude(s, c);
    ArmPhase(s, c);
  }

  lemma ThenConclude(s: State, c: Ticket)
    requires Inv(s) && Enabled(s, Conclude(c))
    ensures Then(s, Conclude(c)) == ConcludeStep(s, c, s.outcomes[s.tasks[c].Instance()])
  {
    hide Inv, ConcludeStep;
    StoreUnique(s);
  }

  lemma ArmPhase(s: State, c: Ticket)
    requires c in s.tasks && s.next !in s.tasks
    ensures InPhase(ArmRetry(s, c), c, Releasing)
  {
  }

  lemma LosesAfterStop(s: State, e: Event, run: Id)
    requires Inv(s) && Enabled(s, e) && OpenRow(Then(s, e), run) && s.shuttingDown
    ensures Movable(Then(s, e), run) <==> Movable(s, run) && run !in Loses(s, e)
  {
    hide Inv, Then, Enabled, OpenRow, Movable, Working, WindsDown, NoTimersBut;
    var u := Then(s, e);
    NextWinds(s, e);
    WindsStopped(s, u);
    StoppedWorks(s, run);
    StoppedWorks(u, run);
    if Working(u, run) {
      StoppedStays(s, u, run);
    }
    if run in Loses(s, e) {
      if e.Conclude? {
        AskingIsLost(s, e.ticket, run);
      } else {
        WaitersAreLost(s, e, run);
      }
    } else if Working(s, run) {
      StillWorking(s, e, run);
    }
  }

  lemma StillWorking(s: State, e: Event, run: Id)
    requires Inv(s) && Enabled(s, e) && OpenRow(Then(s, e), run) && s.shuttingDown
    requires Working(s, run) && run !in Loses(s, e)
    ensures Working(Then(s, e), run)
  {
    hide Inv, Then, Enabled, OpenRow, Loses, Drops;
    var u := Then(s, e);
    var t :| CarriedBy(s.tasks, run, t) && s.tasks[t].HoldsSlot();
    NextFrame(s, e);
    AbandonsExactly(s, e);
    NextWinds(s, e);
    CarriedUnlessDropped(s, run);
    CarriedUnlessDropped(u, run);
    if run in Drops(s, e) {
      NotDropped(s, e, run);
    }
    UniqueCarriers(s, run);
    ArmedIsLost(s, e);
    var v :| CarriedBy(u.tasks, run, v);
    WaitedBefore(s, e, run, v);
  }

  lemma WaitedBefore(s: State, e: Event, run: Id, v: Ticket)
    requires Inv(s) && Enabled(s, e) && s.shuttingDown && run !in ArmedBy(s, e) && CarriedBy(Then(s, e).tasks, run, v)
    ensures Then(s, e).tasks[v].HoldsSlot() || (CarriedBy(s.tasks, run, v) && !s.tasks[v].HoldsSlot())
  {
    hide Inv, Then, Enabled, ArmedBy, GateEmpties;
    NextWinds(s, e);
  }

  lemma NotDropped(s: State, e: Event, run: Id)
    requires Inv(s) && Enabled(s, e) && s.shuttingDown && run in Drops(s, e)
    ensures !Working(s, run)
  {
    hide Inv, Enabled, Working;
    WaitersAreLost(s, e, run);
  }

  lemma ArmedIsLost(s: State, e: Event)
    ensures s.shuttingDown ==> ArmedBy(s, e) <= Loses(s, e)
  {
  }
}
