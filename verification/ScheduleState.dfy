/**
 The schedule runtime as a state machine. One event is everything the manager
 does between two awaits; suspended calls and armed retry timers are `tasks`.
 A task's record is the copy captured when its schedule fired.
 */
module ScheduleState {
  import opened Basics
  import opened ScheduleTypes
  import opened ScheduleGate

  // ---- The two tables ----

  datatype Store = Store(schedules: map<Id, Schedule>, runs: map<Id, RunRow>) {
    function WithSlug(slug: string): set<Id> {
      set id | id in schedules && schedules[id].slug == slug
    }

    /** Deleting schedules removes their run rows with them. */
    function Without(gone: set<Id>): Store {
      Store(schedules - gone, map r | r in runs && runs[r].sid !in gone :: runs[r])
    }

    predicate CanStart(sid: Id, run: Id) {
      sid in schedules && run !in runs
    }

    function Started(sid: Id, run: Id): Store {
      this.(runs := runs[run := RunRow(sid, Instance(sid, run, 0), None, Queued, None, 0)])
    }

    function Admit(run: Id, dispatchId: string): Store {
      if run !in runs then this
      else this.(runs := runs[run := runs[run].(dispatchId := Some(dispatchId), status := Admitted)])
    }

    function Finish(run: Id, status: Status, error: Option<string>): Store {
      if run !in runs then this
      else this.(runs := runs[run := runs[run].(status := status, error := error)])
    }

    function Retry(run: Id, instance: Instance): Store {
      if run !in runs then this
      else
        var row := runs[run];
        this.(runs := runs[run := row.(instance := instance, dispatchId := None, status := Queued,
                                       error := None, attempt := row.attempt + 1)])
    }
  }

  // ---- The whole runtime ----

  datatype Phase =
    | Gated        // waiting in the gate, or woken and not yet running again
    | Slotted      // holds a slot, the caller has not continued yet
    | Dispatching  // dispatch is pending; it may never settle
    | Observing    // dispatch was admitted, the outcome is awaited
    | Releasing    // the attempt is over, the slot is still held
    | Backoff      // an armed retry timer

  datatype Task = Task(rec: Schedule, run: Id, attempt: nat, phase: Phase) {
    function Instance(): Instance { ScheduleTypes.Instance(rec.id, run, attempt) }

    /** The next step of its run is this call's or timer's to take. Whether it ever gets a
        slot to take it with is another matter: see ScheduleStop.Movable. */
    predicate Carries() { phase != Releasing }

    predicate Live() { phase == Dispatching || phase == Observing }

    predicate HoldsSlot() { phase == Slotted || Live() || phase == Releasing }
  }

  datatype Observation = Observation(hadError: bool, errorMessage: string)

  datatype Outcome = OkOutcome | ErrorOutcome(error: string) | TimeoutOutcome(error: string)

  datatype State = State(
    cfg: Config,
    store: Store,
    gate: Gate,
    cron: map<Id, Schedule>,
    pending: map<Instance, Observation>,
    observeTimers: set<Instance>,
    outcomes: map<Instance, Outcome>,    // promises that have settled
    retryTimers: map<Id, set<Ticket>>,
    shuttingDown: bool,
    tasks: map<Ticket, Task>,
    next: Ticket,
    fired: map<Id, Schedule>,            // history: runs fired, with the captured record
    legacy: set<Id>,                     // history: rows left by an earlier process
    known: set<Id>,                      // history: every schedule id there has ever been
    abandoned: set<Id>,                  // history: runs whose retry was cancelled or turned away
    log: seq<Instance>)                  // history: every dispatch, in order
  {
    /** The outcome a turn's end means: an error if any of its turns reported one. */
    function Verdict(i: Instance): Outcome
      requires i in pending
    {
      if pending[i].hadError then ErrorOutcome(pending[i].errorMessage) else OkOutcome
    }
  }

  datatype Event =
    | FireNow(slug: string, run: Id)
    | CronTick(sid: Id, run: Id)
    | ResumeWaiter
    | Begin(ticket: Ticket, preflightOk: bool)
    | DispatchResolves(ticket: Ticket, dispatchId: string)
    | DispatchRejects(ticket: Ticket, reason: string)
    | TurnError(instance: Instance, message: string)
    | AgentEnd(instance: Instance)
    | ObserveTimeout(instance: Instance)
    | Conclude(ticket: Ticket)
    | ReleaseSlot(ticket: Ticket)
    | RetryDue(ticket: Ticket)
    | Delete(slug: string)
    | Save(rec: Schedule, validPattern: bool)
    | Stop

  // ---- Building blocks ----

  function SetPhase(s: State, t: Ticket, p: Phase): State
    requires t in s.tasks
  {
    s.(tasks := s.tasks[t := s.tasks[t].(phase := p)])
  }

  /** Enter the gate: hold a slot at once, or wait. */
  function EnterGate(s: State, t: Ticket): State
    requires t in s.tasks
  {
    SetPhase(AtGate(s, t), t, if s.gate.inFlight >= s.cfg.maxConcurrentRuns then Gated else Slotted)
  }

  function AtGate(s: State, t: Ticket): State {
    s.(gate := Acquire(s.gate, s.cfg.maxConcurrentRuns, t))
  }

  function Fire(s: State, rec: Schedule, run: Id): State {
    if s.shuttingDown then s else EnterGate(Arrived(s, rec, run), s.next)
  }

  function Arrived(s: State, rec: Schedule, run: Id): State {
    s.(tasks := s.tasks[s.next := Task(rec, run, 0, Gated)], next := s.next + 1, fired := s.fired[run := rec])
  }

  function TimersOf(s: State, sid: Id): set<Ticket> {
    if sid in s.retryTimers then s.retryTimers[sid] else {}
  }

  function RunsOf(s: State, ts: set<Ticket>): set<Id> {
    set t | t in ts && t in s.tasks :: s.tasks[t].run
  }

  function AllTimers(s: State): set<Ticket> {
    set sid, t | sid in s.retryTimers && t in s.retryTimers[sid] :: t
  }

  function CancelRetries(s: State, sid: Id): State {
    s.(tasks := s.tasks - TimersOf(s, sid), retryTimers := s.retryTimers - {sid})
  }

  /** Settle an observation: stop its timer, forget it, resolve its promise. */
  function Settle(s: State, i: Instance, o: Outcome): State {
    if i !in s.pending then s
    else s.(pending := s.pending - {i}, observeTimers := s.observeTimers - {i},
            outcomes := s.outcomes[i := o])
  }

  function Uncron(s: State, sid: Id): State {
    s.(cron := s.cron - {sid})
  }

  /** One-shot schedules delete themselves, by slug, after a final outcome. */
  function AutoDelete(s: State, rec: Schedule): State {
    if rec.deleteAfterRun && rec.kind == AtKind then
      Uncron(s, rec.id).(store := s.store.Without(s.store.WithSlug(rec.slug)))
    else s
  }

  /** Write a terminal row, auto-delete, and leave only the slot to give back. */
  function EndAttempt(s: State, t: Ticket, status: Status, error: Option<string>): State
    requires t in s.tasks
  {
    var task := s.tasks[t];
    AutoDelete(SetPhase(s, t, Releasing).(store := s.store.Finish(task.run, status, error)), task.rec)
  }

  function BeginAttempt(s: State, t: Ticket): State
    requires t in s.tasks
  {
    var i := s.tasks[t].Instance();
    SetPhase(s, t, Dispatching)
      .(pending := s.pending[i := Observation(false, "")], observeTimers := s.observeTimers + {i},
        log := s.log + [i])
  }

  /** The next attempt of a task, as the timer will start it. */
  function Again(task: Task): Task {
    task.(attempt := task.attempt + 1, phase := Backoff)
  }

  function Requeued(s: State, task: Task): State {
    s.(store := s.store.Retry(task.run, Again(task).Instance()))
  }

  /** A new timer, tracked under its schedule. */
  function Armed(s: State, task: Task): State {
    s.(tasks := s.tasks[s.next := task],
       retryTimers := s.retryTimers[task.rec.id := TimersOf(s, task.rec.id) + {s.next}],
       next := s.next + 1)
  }

  function ArmRetry(s: State, t: Ticket): State
    requires t in s.tasks
  {
    Armed(SetPhase(Requeued(s, s.tasks[t]), t, Releasing), Again(s.tasks[t]))
  }

  predicate Retries(cfg: Config, task: Task, error: string) {
    var category := cfg.classify(error);
    IsTransient(category) && category in cfg.retryOn && task.attempt < Budget(task.rec, cfg)
  }

  function Sync(s: State, rec: Schedule, validPattern: bool): State {
    if !rec.enabled || s.shuttingDown then
      CancelRetries(s, rec.id).(cron := s.cron - {rec.id},
                                abandoned := s.abandoned + RunsOf(s, TimersOf(s, rec.id)))
    else if !validPattern then s.(cron := s.cron - {rec.id})
    else s.(cron := s.cron[rec.id := rec])
  }

  // ---- Events ----

  predicate InPhase(s: State, t: Ticket, p: Phase) {
    t in s.tasks && s.tasks[t].phase == p
  }

  /** Run ids are ULIDs: no two fires ever share one. */
  predicate FreshRun(s: State, run: Id) {
    run !in s.fired && run !in s.legacy
  }

  predicate Enabled(s: State, e: Event) {
    match e
    case FireNow(slug, run) => FreshRun(s, run) && s.store.WithSlug(slug) != {}
    case CronTick(sid, run) => FreshRun(s, run) && sid in s.cron
    case ResumeWaiter => s.gate.woken != []
    case Begin(t, _) => InPhase(s, t, Slotted)
    case DispatchResolves(t, _) => InPhase(s, t, Dispatching)
    case DispatchRejects(t, _) => InPhase(s, t, Dispatching)
    case TurnError(_, _) => !s.shuttingDown
    case AgentEnd(_) => !s.shuttingDown
    case ObserveTimeout(i) => i in s.observeTimers
    case Conclude(t) => InPhase(s, t, Observing) && s.tasks[t].Instance() in s.outcomes
    case ReleaseSlot(t) => InPhase(s, t, Releasing)
    case RetryDue(t) => InPhase(s, t, Backoff)
    case Delete(slug) => s.store.WithSlug(slug) != {}
    case Save(rec, _) => CanSave(s, rec)
    case Stop => true
  }

  /** A save inserts an id never used before under a new slug, or rewrites the row that has the slug. */
  predicate CanSave(s: State, rec: Schedule) {
    var same := s.store.WithSlug(rec.slug);
    if same == {} then rec.id !in s.known else rec.id in same
  }

  function Next(s: State, e: Event): State
    requires Enabled(s, e)
    requires SlugsUnique(s.store.schedules)
    requires e.ResumeWaiter? ==> s.gate.woken[0] in s.tasks
  {
    match e
    case FireNow(slug, run) => Fire(s, s.store.schedules[TheId(s.store, slug)], run)
    case CronTick(sid, run) => Fire(s, s.cron[sid], run)
    case ResumeWaiter => ResumeStep(s)
    case Begin(t, ok) => BeginStep(s, t, ok)
    case DispatchResolves(t, d) => AdmitStep(s, t, d)
    case DispatchRejects(t, reason) => RejectStep(s, t, reason)
    case TurnError(i, m) => if i in s.pending then TurnErrorStep(s, i, m) else s
    case AgentEnd(i) => if i in s.pending then Settle(s, i, s.Verdict(i)) else s
    case ObserveTimeout(i) => TimeoutStep(s, i)
    case Conclude(t) => ConcludeStep(s, t, s.outcomes[s.tasks[t].Instance()])
    case ReleaseSlot(t) => ReleaseStep(s, t)
    case RetryDue(t) => RetryStep(s, t)
    case Delete(slug) => DeleteStep(s, TheId(s.store, slug))
    case Save(rec, valid) => Sync(Saved(s, rec), rec, valid)
    case Stop => StopStep(s)
  }

  ghost predicate SlugsUnique(schedules: map<Id, Schedule>) {
    && (forall id :: id in schedules ==> schedules[id].id == id)
    && (forall a, b | a in schedules && b in schedules :: schedules[a].slug == schedules[b].slug ==> a == b)
  }

  function TheId(store: Store, slug: string): (id: Id)
    requires SlugsUnique(store.schedules) && store.WithSlug(slug) != {}
    ensures id in store.schedules && store.WithSlug(slug) == {id}
  {
    var same := store.WithSlug(slug);
    assert exists id :: id in same;
    assert forall a, b :: a in same && b in same ==> a == b;
    var id :| id in same;
    id
  }

  function ResumeStep(s: State): State
    requires s.gate.woken != [] && s.gate.woken[0] in s.tasks
  {
    var t := s.gate.woken[0];
    if s.shuttingDown then TurnedAway(Resumed(s), t) else SetPhase(Resumed(s), t, Slotted)
  }

  function Resumed(s: State): State
    requires s.gate.woken != []
  {
    s.(gate := Resume(s.gate, s.shuttingDown))
  }

  /** A retry that is turned away leaves its run queued. */
  function TurnedAway(s: State, t: Ticket): State
    requires t in s.tasks
  {
    s.(tasks := s.tasks - {t},
       abandoned := s.abandoned + (if s.tasks[t].attempt > 0 then {s.tasks[t].run} else {}))
  }

  function RowStarted(s: State, sid: Id, run: Id): State {
    s.(store := s.store.Started(sid, run))
  }

  /** A first attempt starts its row and may stop there; a retry dispatches at once. */
  function BeginStep(s: State, t: Ticket, preflightOk: bool): State
    requires t in s.tasks
  {
    var task := s.tasks[t];
    if task.attempt > 0 then BeginAttempt(s, t)
    else if !s.store.CanStart(task.rec.id, task.run) then SetPhase(s, t, Releasing)
    else
      var u := RowStarted(s, task.rec.id, task.run);
      if preflightOk then BeginAttempt(u, t)
      else EndAttempt(u, t, Skipped, Some("provider endpoint unavailable"))
  }

  function AdmitStep(s: State, t: Ticket, dispatchId: string): State
    requires t in s.tasks
  {
    SetPhase(s, t, Observing).(store := s.store.Admit(s.tasks[t].run, dispatchId))
  }

  /** A failed admission cancels the observation and ends the run, without a retry. */
  function RejectStep(s: State, t: Ticket, reason: string): State
    requires t in s.tasks
  {
    EndAttempt(Settle(s, s.tasks[t].Instance(), TimeoutOutcome("cancelled")), t, Failed, Some(reason))
  }

  function TurnErrorStep(s: State, i: Instance, message: string): State {
    s.(pending := s.pending[i := Observation(true, message)])
  }

  /** What the event subscriber does with an event of the instance: a turn's error is
      remembered, the end settles by it, and everything else changes nothing. */
  function AgentEvent(s: State, i: Instance, isTurn: bool, isError: bool, isEnd: bool, message: string): State {
    if i !in s.pending then s
    else if isTurn && isError then TurnErrorStep(s, i, message)
    else if isEnd then Settle(s, i, s.Verdict(i))
    else s
  }

  function ReleaseStep(s: State, t: Ticket): State {
    s.(tasks := s.tasks - {t}, gate := Release(s.gate, t))
  }

  function DeleteStep(s: State, id: Id): State {
    Unstored(Uncron(CancelRetries(s, id), id), id)
  }

  function Unstored(s: State, id: Id): State {
    s.(store := s.store.Without({id}))
  }

  function Saved(s: State, rec: Schedule): State {
    s.(store := s.store.(schedules := s.store.schedules[rec.id := rec]), known := s.known + {rec.id})
  }

  /** The observation timer resolves the promise whether or not it is still pending. */
  function TimeoutStep(s: State, i: Instance): State {
    s.(pending := s.pending - {i}, observeTimers := s.observeTimers - {i},
       outcomes := if i in s.outcomes then s.outcomes
                   else s.outcomes[i := TimeoutOutcome("observe timeout")])
  }

  function ConcludeStep(s: State, t: Ticket, o: Outcome): State
    requires t in s.tasks
  {
    match o
    case OkOutcome => EndAttempt(s, t, Succeeded, None)
    case TimeoutOutcome(m) => EndAttempt(s, t, TimedOut, Some(m))
    case ErrorOutcome(m) =>
      if Retries(s.cfg, s.tasks[t], m) then ArmRetry(s, t)
      else EndAttempt(s, t, if IsTransient(s.cfg.classify(m)) then Failed else Skipped, Some(m))
  }

  /** A timer that has fired is no longer tracked. */
  function TimerFired(s: State, t: Ticket): State
    requires t in s.tasks
  {
    var sid := s.tasks[t].rec.id;
    s.(retryTimers := if sid in s.retryTimers then s.retryTimers[sid := s.retryTimers[sid] - {t}] else s.retryTimers)
  }

  function RetryStep(s: State, t: Ticket): State
    requires t in s.tasks
  {
    var task := s.tasks[t];
    var sid := task.rec.id;
    var u := TimerFired(s, t);
    if s.shuttingDown then u.(tasks := s.tasks - {t}, abandoned := s.abandoned + {task.run})
    else if sid !in s.store.schedules then CancelRetries(u.(tasks := s.tasks - {t}), sid)
    else EnterGate(u, t)
  }

  function Refusing(s: State): State {
    s.(shuttingDown := true, cron := map[])
  }

  /** A stop abandons the runs of every armed timer. */
  function TimersDropped(s: State): State {
    var timers := AllTimers(s);
    s.(tasks := s.tasks - timers, retryTimers := map[], abandoned := s.abandoned + RunsOf(s, timers))
  }

  function ClosedDown(s: State): State {
    var timers := AllTimers(s);
    s.(shuttingDown := true, cron := map[],
       tasks := s.tasks - timers, retryTimers := map[],
       abandoned := s.abandoned + RunsOf(s, timers))
  }

  function StopStep(s: State): State {
    AllSettled(ClosedDown(s))
  }

  function AllSettled(s: State): State {
    s.(pending := map[], observeTimers := s.observeTimers - s.pending.Keys, outcomes := s.outcomes + Drained(s.pending))
  }

  function Drained(pending: map<Instance, Observation>): map<Instance, Outcome> {
    map i | i in pending :: TimeoutOutcome("shutdown drain")
  }

  // ---- The steps, taken apart ----

  lemma EnterGateIs(s: State, t: Ticket)
    requires t in s.tasks
    ensures EnterGate(s, t) ==
      SetPhase(AtGate(s, t), t, if s.gate.inFlight >= s.cfg.maxConcurrentRuns then Gated else Slotted)
  {
  }

  lemma FireIs(s: State, rec: Schedule, run: Id)
    ensures Fire(s, rec, run) == if s.shuttingDown then s else EnterGate(Arrived(s, rec, run), s.next)
  {
  }

  lemma FireGives(s: State, rec: Schedule, run: Id)
    requires !s.shuttingDown
    ensures var full := s.gate.inFlight >= s.cfg.maxConcurrentRuns;
      Fire(s, rec, run) ==
        s.(tasks := s.tasks[s.next := Task(rec, run, 0, if full then Gated else Slotted)], next := s.next + 1,
           fired := s.fired[run := rec], gate := Acquire(s.gate, s.cfg.maxConcurrentRuns, s.next))
  {
    hide Acquire;
    var t, phase := s.next, if s.gate.inFlight >= s.cfg.maxConcurrentRuns then Gated else Slotted;
    assert s.tasks[t := Task(rec, run, 0, Gated)][t := Task(rec, run, 0, phase)]
           == s.tasks[t := Task(rec, run, 0, phase)];
  }

  lemma BeginStepIs(s: State, t: Ticket, preflightOk: bool)
    requires t in s.tasks
    ensures var task := s.tasks[t]; var u := RowStarted(s, task.rec.id, task.run);
      && u.tasks == s.tasks && Terminal(Skipped)
      && BeginStep(s, t, preflightOk) ==
           if task.attempt > 0 then BeginAttempt(s, t)
           else if !s.store.CanStart(task.rec.id, task.run) then SetPhase(s, t, Releasing)
           else if preflightOk then BeginAttempt(u, t)
           else EndAttempt(u, t, Skipped, Some("provider endpoint unavailable"))
  {
  }

  lemma ArmRetryIs(s: State, t: Ticket)
    requires t in s.tasks
    ensures Requeued(s, s.tasks[t]).tasks == s.tasks
    ensures ArmRetry(s, t) == Armed(SetPhase(Requeued(s, s.tasks[t]), t, Releasing), Again(s.tasks[t]))
  {
  }

  lemma TheIdIs(store: Store, slug: string, id: Id)
    requires SlugsUnique(store.schedules) && store.WithSlug(slug) == {id}
    ensures TheId(store, slug) == id
  {
    assert TheId(store, slug) in {id};
  }

  lemma DeleteStepIs(s: State, id: Id)
    ensures DeleteStep(s, id) == Unstored(Uncron(CancelRetries(s, id), id), id)
    ensures CancelRetries(s, id).(abandoned := s.abandoned) == CancelRetries(s, id)
    ensures Uncron(CancelRetries(s, id), id).store == s.store
    ensures CancelRetries(s, id).abandoned == s.abandoned
  {
  }

  lemma ClosedDownIs(s: State)
    ensures ClosedDown(s) == TimersDropped(Refusing(s))
  {
    assert AllTimers(Refusing(s)) == AllTimers(s);
    assert RunsOf(Refusing(s), AllTimers(s)) == RunsOf(s, AllTimers(s));
  }

  lemma StopStepIs(s: State)
    ensures StopStep(s) == AllSettled(ClosedDown(s))
    ensures ClosedDown(s).pending == s.pending && ClosedDown(s).observeTimers == s.observeTimers
  {
  }

  lemma ResumeStepIs(s: State)
    requires s.gate.woken != [] && s.gate.woken[0] in s.tasks
    ensures var t := s.gate.woken[0];
      && Resumed(s).tasks == s.tasks
      && ResumeStep(s) == if s.shuttingDown then TurnedAway(Resumed(s), t) else SetPhase(Resumed(s), t, Slotted)
  {
  }
}
