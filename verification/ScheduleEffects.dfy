/** What each event leaves in the tables, the promises and the log, said without the steps. */
module ScheduleEffects {
  import opened Basics
  import opened ScheduleTypes
  import opened ScheduleGate
  import opened ScheduleState
  import opened ScheduleInvariant
  import opened ScheduleRuns
  import opened ScheduleConsequences
  import opened ScheduleWaiting
  import opened ScheduleStop

  // ---- Rows ----

  /** The outcome is an error of a kind that passes, that is to be retried, and that has retries left. */
  predicate TriedAgain(s: State, task: Task, error: string) {
    var category := s.cfg.classify(error);
    && category in {"rate_limit", "overloaded", "network", "server_error"} && category in s.cfg.retryOn
    && task.attempt < if task.rec.maxAttempts.Some? then task.rec.maxAttempts.value else s.cfg.maxAttempts
  }

  /** The row as the outcome of its attempt leaves it. */
  predicate ShowsOutcome(s: State, task: Task, before: RunRow, after: RunRow) {
    && task.Instance() in s.outcomes
    && match s.outcomes[task.Instance()]
       case OkOutcome => after == before.(status := Succeeded, error := None)
       case TimeoutOutcome(m) => after == before.(status := TimedOut, error := Some(m))
       case ErrorOutcome(m) =>
         if TriedAgain(s, task, m) then
           after == RunRow(before.sid, Instance(task.rec.id, task.run, task.attempt + 1), None, Queued, None,
                           task.attempt + 1)
         else
           after.status == (if s.cfg.classify(m) in {"rate_limit", "overloaded", "network", "server_error"}
                            then Failed else Skipped)
           && after == before.(status := after.status, error := Some(m))
  }

  /** A finished one-shot schedule goes by its slug, and a row goes with its schedule. */
  predicate GoesWith(s: State, rec: Schedule, sid: Id) {
    rec.deleteAfterRun && rec.kind == AtKind && sid in s.store.schedules && s.store.schedules[sid].slug == rec.slug
  }

  lemma EndRow(s: State, t: Ticket, status: Status, error: Option<string>)
    requires t in s.tasks && (s.tasks[t].run in s.store.runs ==> s.store.runs[s.tasks[t].run].sid in s.store.schedules)
    ensures var run, u := s.tasks[t].run, EndAttempt(s, t, status, error);
      && (run in u.store.runs <==>
            run in s.store.runs && !GoesWith(s, s.tasks[t].rec, s.store.runs[run].sid))
      && (run in u.store.runs ==> u.store.runs[run] == s.store.runs[run].(status := status, error := error))
  {
  }

  lemma RetryRow(s: State, t: Ticket)
    requires t in s.tasks && s.tasks[t].run in s.store.runs
    requires s.store.runs[s.tasks[t].run].attempt == s.tasks[t].attempt
    ensures var task := s.tasks[t]; var runs := ArmRetry(s, t).store.runs;
      task.run in runs && runs[task.run] ==
        RunRow(s.store.runs[task.run].sid, Instance(task.rec.id, task.run, task.attempt + 1), None, Queued, None,
               task.attempt + 1)
  {
  }

  lemma RetriesIff(s: State, task: Task, error: string)
    ensures Retries(s.cfg, task, error) <==> TriedAgain(s, task, error)
  {
  }

  /** The row stays, unless its schedule is finished with it, and shows the outcome. */
  ghost predicate Concluded(s: State, u: State, t: Ticket)
    requires t in s.tasks && s.tasks[t].Instance() in s.outcomes
  {
    var task := s.tasks[t]; var o := s.outcomes[task.Instance()];
    && (task.run in u.store.runs <==>
          && task.run in s.store.runs
          && ((o.ErrorOutcome? && TriedAgain(s, task, o.error))
              || !GoesWith(s, task.rec, s.store.runs[task.run].sid)))
    && (task.run in u.store.runs ==> ShowsOutcome(s, task, s.store.runs[task.run], u.store.runs[task.run]))
  }

  lemma ConcludedRow(s: State, t: Ticket)
    requires Inv(s) && Enabled(s, Conclude(t))
    ensures Concluded(s, Then(s, Conclude(t)), t)
  {
    hide Inv, Then, EndAttempt, ArmRetry, Retries, TriedAgain, GoesWith;
    var task := s.tasks[t];
    ThenConclude(s, t);
    RowHasSchedule(s, task.run);
    CarrierFacts(s, t);
    match s.outcomes[task.Instance()]
    case OkOutcome => EndRow(s, t, Succeeded, None);
    case TimeoutOutcome(m) => EndRow(s, t, TimedOut, Some(m));
    case ErrorOutcome(m) =>
      RetriesIff(s, task, m);
      EndRow(s, t, if IsTransient(s.cfg.classify(m)) then Failed else Skipped, Some(m));
      if task.run in s.store.runs {
        RetryRow(s, t);
      } else {
        RetryNoRow(s, t);
      }
  }

  lemma RetryNoRow(s: State, t: Ticket)
    requires t in s.tasks && s.tasks[t].run !in s.store.runs
    ensures ArmRetry(s, t).store == s.store
  {
  }

  lemma RowHasSchedule(s: State, run: Id)
    requires Inv(s)
    ensures run in s.store.runs ==> s.store.runs[run].sid in s.store.schedules
  {
  }

  /** A refused dispatch fails its run with the reason; it is not retried. */
  lemma RejectedRow(s: State, t: Ticket, reason: string)
    requires Inv(s) && Enabled(s, DispatchRejects(t, reason))
    ensures var run, u := s.tasks[t].run, Then(s, DispatchRejects(t, reason));
      && (run in u.store.runs <==> run in s.store.runs && !GoesWith(s, s.tasks[t].rec, s.store.runs[run].sid))
      && (run in u.store.runs ==> u.store.runs[run] == s.store.runs[run].(status := Failed, error := Some(reason)))
  {
    hide Inv, Then, EndAttempt, Settle, GoesWith;
    var i := s.tasks[t].Instance();
    ThenReject(s, t, reason);
    RowHasSchedule(s, s.tasks[t].run);
    SettledStore(s, i, TimeoutOutcome("cancelled"));
    EndRow(Settle(s, i, TimeoutOutcome("cancelled")), t, Failed, Some(reason));
    SameGoing(s, Settle(s, i, TimeoutOutcome("cancelled")));
  }

  lemma SameGoing(s: State, u: State)
    requires u.store == s.store
    ensures forall rec, sid :: GoesWith(u, rec, sid) <==> GoesWith(s, rec, sid)
  {
  }

  lemma SettledStore(s: State, i: Instance, o: Outcome)
    ensures var u := Settle(s, i, o); u.store == s.store && u.tasks == s.tasks && u.log == s.log && u.cron == s.cron
  {
  }

  lemma ThenReject(s: State, t: Ticket, reason: string)
    requires Inv(s) && Enabled(s, DispatchRejects(t, reason))
    ensures Then(s, DispatchRejects(t, reason)) ==
      EndAttempt(Settle(s, s.tasks[t].Instance(), TimeoutOutcome("cancelled")), t, Failed, Some(reason))
  {
    hide Inv, EndAttempt, Settle;
    StoreUnique(s);
  }

  lemma AdmittedRow(s: State, t: Ticket, dispatchId: string)
    requires Inv(s) && Enabled(s, DispatchResolves(t, dispatchId))
    ensures var run, u := s.tasks[t].run, Then(s, DispatchResolves(t, dispatchId));
      && u.store.runs.Keys == s.store.runs.Keys
      && (run in u.store.runs ==>
            u.store.runs[run] == s.store.runs[run].(status := Admitted, dispatchId := Some(dispatchId)))
  {
    hide Inv;
    StoreUnique(s);
  }

  /** A first attempt starts its row exactly if its schedule is there and has not started it
      before; then a failing preflight skips it, and otherwise it dispatches. A retry dispatches at once. */
  lemma BegunRow(s: State, t: Ticket, ok: bool)
    requires Inv(s) && Enabled(s, Begin(t, ok))
    ensures Begun(s, Then(s, Begin(t, ok)), t, ok)
  {
    hide Inv, Then, EndAttempt, BeginStep, GoesWith, Begun, BeginAttempt;
    var task := s.tasks[t];
    ThenBegin(s, t, ok);
    BeginStepIs(s, t, ok);
    var v := RowStarted(s, task.rec.id, task.run);
    if task.attempt == 0 && s.store.CanStart(task.rec.id, task.run) {
      StartedBegun(s, t, ok);
    } else {
      PlainBegun(s, t, ok);
    }
  }

  ghost predicate Begun(s: State, u: State, t: Ticket, ok: bool)
    requires t in s.tasks
  {
    var task := s.tasks[t]; var rec, run := task.rec, task.run;
    var row := RunRow(rec.id, Instance(rec.id, run, 0), None, Queued, None, 0);
    var starts := task.attempt == 0 && rec.id in s.store.schedules && run !in s.store.runs;
    && (u.log == if task.attempt > 0 || (starts && ok) then s.log + [Instance(rec.id, run, task.attempt)] else s.log)
    && (!starts ==> u.store == s.store)
    && (starts && ok ==> u.store.runs == s.store.runs[run := row] && u.store.schedules == s.store.schedules)
    && (starts && !ok ==>
          && (run in u.store.runs <==> !GoesWith(s, rec, rec.id))
          && (run in u.store.runs ==>
                u.store.runs[run] == row.(status := Skipped, error := Some("provider endpoint unavailable"))))
  }

  lemma PlainBegun(s: State, t: Ticket, ok: bool)
    requires t in s.tasks && (s.tasks[t].attempt > 0 || !s.store.CanStart(s.tasks[t].rec.id, s.tasks[t].run))
    ensures Begun(s, if s.tasks[t].attempt > 0 then BeginAttempt(s, t) else SetPhase(s, t, Releasing), t, ok)
  {
  }

  lemma StartedBegun(s: State, t: Ticket, ok: bool)
    requires t in s.tasks && s.tasks[t].attempt == 0 && s.store.CanStart(s.tasks[t].rec.id, s.tasks[t].run)
    ensures var v := RowStarted(s, s.tasks[t].rec.id, s.tasks[t].run);
      && v.tasks == s.tasks
      && Begun(s, if ok then BeginAttempt(v, t)
                  else EndAttempt(v, t, Skipped, Some("provider endpoint unavailable")), t, ok)
  {
    hide EndAttempt, GoesWith;
    var task := s.tasks[t];
    var v := RowStarted(s, task.rec.id, task.run);
    StartedRow(s, task.rec.id, task.run);
    EndRow(v, t, Skipped, Some("provider endpoint unavailable"));
    EndLog(v, t, Skipped, Some("provider endpoint unavailable"));
    StartedGoing(s, task.rec.id, task.run);
  }

  lemma StartedRow(s: State, sid: Id, run: Id)
    ensures var v := RowStarted(s, sid, run);
      && v.store.runs == s.store.runs[run := RunRow(sid, Instance(sid, run, 0), None, Queued, None, 0)]
      && v.store.schedules == s.store.schedules && v.tasks == s.tasks && v.log == s.log
  {
  }

  lemma StartedGoing(s: State, sid: Id, run: Id)
    ensures forall rec, id :: GoesWith(RowStarted(s, sid, run), rec, id) <==> GoesWith(s, rec, id)
  {
  }

  lemma EndLog(s: State, t: Ticket, status: Status, error: Option<string>)
    requires t in s.tasks
    ensures EndAttempt(s, t, status, error).log == s.log
  {
  }

  lemma ThenBegin(s: State, t: Ticket, ok: bool)
    requires Inv(s) && Enabled(s, Begin(t, ok))
    ensures Then(s, Begin(t, ok)) == BeginStep(s, t, ok)
  {
    hide Inv, BeginStep;
    StoreUnique(s);
  }

  // ---- Promises ----

  /** What the subscriber makes of an agent's events: a turn with an error is remembered, the end
      settles, and nothing else does anything. */
  lemma AgentEventIs(s: State, i: Instance, isTurn: bool, isError: bool, isEnd: bool, message: string)
    requires Inv(s) && !s.shuttingDown && !(isTurn && isEnd)
    ensures Enabled(s, TurnError(i, message)) && Enabled(s, AgentEnd(i))
    ensures AgentEvent(s, i, isTurn, isError, isEnd, message) ==
      if isTurn && isError then Then(s, TurnError(i, message)) else if isEnd then Then(s, AgentEnd(i)) else s
  {
    hide Inv, Settle;
    StoreUnique(s);
  }

  /** How a promise settles: by the end of the agent, by its timer, by a refused dispatch, or by a stop. */
  function Settlement(s: State, e: Event, i: Instance): Option<Outcome> {
    match e
    case AgentEnd(j) =>
      if j != i || i !in s.pending then None
      else if s.pending[i].hadError then Some(ErrorOutcome(s.pending[i].errorMessage)) else Some(OkOutcome)
    case ObserveTimeout(j) => if j == i && i in s.pending then Some(TimeoutOutcome("observe timeout")) else None
    case DispatchRejects(t, _) =>
      if t in s.tasks && s.tasks[t].Instance() == i && i in s.pending then Some(TimeoutOutcome("cancelled")) else None
    case Stop => if i in s.pending then Some(TimeoutOutcome("shutdown drain")) else None
    case _ => None
  }

  /** A new promise is one that this event dispatches; it is pending and has seen no error. */
  ghost predicate PromiseSettles(s: State, u: State, e: Event, i: Instance) {
    var settled := Settlement(s, e, i);
    && s.log <= u.log
    && (i in u.outcomes <==> i in s.outcomes || settled.Some?)
    && (i in u.outcomes ==> u.outcomes[i] == if i in s.outcomes then s.outcomes[i] else settled.value)
    && (i in u.pending <==> (i in s.pending && settled.None?) || i in u.log[|s.log|..])
    && (i in u.pending ==>
          u.pending[i] == if i !in s.pending then Observation(false, "")
                          else if e.TurnError? && e.instance == i then Observation(true, e.message) else s.pending[i])
  }

  ghost predicate SamePromises(s: State, u: State) {
    u.pending == s.pending && u.outcomes == s.outcomes && u.log == s.log
  }

  lemma NothingSettles(s: State, u: State, e: Event, i: Instance)
    requires SamePromises(s, u) && Settlement(s, e, i).None? && !e.TurnError?
    ensures PromiseSettles(s, u, e, i)
  {
  }

  lemma FireKeepsPromises(s: State, rec: Schedule, run: Id)
    ensures SamePromises(s, Fire(s, rec, run))
  {
    hide Acquire;
  }

  lemma EndKeepsPromises(s: State, t: Ticket, status: Status, error: Option<string>)
    requires t in s.tasks
    ensures SamePromises(s, EndAttempt(s, t, status, error))
  {
  }

  lemma ArmKeepsPromises(s: State, t: Ticket)
    requires t in s.tasks
    ensures SamePromises(s, ArmRetry(s, t))
  {
  }

  lemma ConcludeKeepsPromises(s: State, t: Ticket, o: Outcome)
    requires t in s.tasks
    ensures SamePromises(s, ConcludeStep(s, t, o))
  {
    hide EndAttempt, ArmRetry, Retries, SamePromises;
    match o
    case OkOutcome => EndKeepsPromises(s, t, Succeeded, None);
    case TimeoutOutcome(m) => EndKeepsPromises(s, t, TimedOut, Some(m));
    case ErrorOutcome(m) =>
      ArmKeepsPromises(s, t);
      EndKeepsPromises(s, t, if IsTransient(s.cfg.classify(m)) then Failed else Skipped, Some(m));
  }

  lemma RetryKeepsPromises(s: State, t: Ticket)
    requires t in s.tasks
    ensures SamePromises(s, RetryStep(s, t))
  {
    hide Acquire, TimersOf;
  }

  lemma SaveKeepsPromises(s: State, rec: Schedule, valid: bool)
    ensures SamePromises(s, Sync(Saved(s, rec), rec, valid))
  {
  }

  /** The promise of an instance that is pending settles with the outcome. */
  ghost predicate SettledBy(s: State, u: State, i: Instance, o: Outcome) {
    && u.log == s.log
    && (if i in s.pending then u.pending == s.pending - {i} && u.outcomes == s.outcomes[i := o]
        else u.pending == s.pending && u.outcomes == s.outcomes)
  }

  lemma SettlesIt(s: State, u: State, j: Instance, o: Outcome, e: Event, i: Instance)
    requires SettledBy(s, u, j, o) && (j in s.pending ==> j !in s.outcomes) && !e.TurnError?
    requires Settlement(s, e, i) == if i == j && i in s.pending then Some(o) else None
    ensures PromiseSettles(s, u, e, i)
  {
  }

  /** At most one new dispatch, watched from the start. */
  ghost predicate Watches(s: State, u: State, j: Instance) {
    && j !in s.pending && u.log == s.log + [j]
    && u.pending == s.pending[j := Observation(false, "")] && u.outcomes == s.outcomes
  }

  lemma WatchesIt(s: State, u: State, j: Instance, e: Event, i: Instance)
    requires Watches(s, u, j) && Settlement(s, e, i).None? && !e.TurnError?
    ensures PromiseSettles(s, u, e, i)
  {
    assert u.log[|s.log|..] == [j];
  }

  lemma BeginWatches(s: State, t: Ticket, ok: bool)
    requires t in s.tasks && s.tasks[t].Instance() !in s.pending
    ensures SamePromises(s, BeginStep(s, t, ok)) || Watches(s, BeginStep(s, t, ok), s.tasks[t].Instance())
  {
    hide EndAttempt, BeginStep, SamePromises;
    var task := s.tasks[t];
    var v := RowStarted(s, task.rec.id, task.run);
    BeginStepIs(s, t, ok);
    AttemptWatches(s, t);
    AttemptWatches(v, t);
    EndKeepsPromises(v, t, Skipped, Some("provider endpoint unavailable"));
    StartKeepsPromises(s, t, v, EndAttempt(v, t, Skipped, Some("provider endpoint unavailable")));
  }

  lemma StartKeepsPromises(s: State, t: Ticket, v: State, u: State)
    requires t in s.tasks && v == s.(store := v.store) && SamePromises(v, u)
    ensures SamePromises(s, u) && SamePromises(s, SetPhase(s, t, Releasing))
  {
  }

  lemma AttemptWatches(s: State, t: Ticket)
    requires t in s.tasks && s.tasks[t].Instance() !in s.pending
    ensures Watches(s, BeginAttempt(s, t), s.tasks[t].Instance())
  {
  }

  lemma PendingIsLogged(s: State, t: Ticket)
    requires Inv(s) && InPhase(s, t, Slotted)
    ensures s.tasks[t].Instance() !in s.pending
  {
    CarrierFacts(s, t);
    hide GateLinked, RowsSound, TasksSound, RowsAgree, OpenRowsCarried, AbandonedSound,
         LogSound, LogBehind, TimersTracked, NoIdleSlot, GateInv;
  }

  lemma StopSettles(s: State, i: Instance)
    requires forall j :: j in s.outcomes ==> j !in s.pending
    ensures var u := StopStep(s); PromiseSettles(s, u, Stop, i)
  {
    hide AllTimers, RunsOf;
  }

  lemma TurnErrorMarks(s: State, j: Instance, m: string, i: Instance)
    ensures var u := if j in s.pending then TurnErrorStep(s, j, m) else s;
      PromiseSettles(s, u, TurnError(j, m), i)
  {
  }

  lemma RejectSettles(s: State, t: Ticket, reason: string)
    requires t in s.tasks
    ensures SettledBy(s, RejectStep(s, t, reason), s.tasks[t].Instance(), TimeoutOutcome("cancelled"))
  {
    hide EndAttempt;
    var i := s.tasks[t].Instance();
    EndKeepsPromises(Settle(s, i, TimeoutOutcome("cancelled")), t, Failed, Some(reason));
  }

  lemma SettleIs(s: State, j: Instance, o: Outcome)
    ensures SettledBy(s, Settle(s, j, o), j, o)
  {
  }

  /** Each promise settles exactly so, and a pending one remembers the last error of its turns. */
  lemma PromisesSettle(s: State, e: Event, i: Instance)
    requires Inv(s) && Enabled(s, e)
    ensures var u := Then(s, e); PromiseSettles(s, u, e, i)
  {
    hide Fire, EndAttempt, BeginStep, RejectStep, ConcludeStep, RetryStep, Sync, Saved, StopStep, Settle, TurnErrorStep,
         GateLinked, RowsSound, TasksSound, RowsAgree, OpenRowsCarried, AbandonedSound, ObservationsSound,
         LogSound, LogBehind, TimersTracked, NoIdleSlot, GateInv, TheId, Acquire, Release, Resume,
         PromiseSettles, SettledBy, Watches;
    StoreUnique(s);
    FreshTicket(s);
    var u := Then(s, e);
    match e
    case FireNow(slug, run) =>
      FireKeepsPromises(s, s.store.schedules[TheId(s.store, slug)], run);
      NothingSettles(s, u, e, i);
    case CronTick(sid, run) => FireKeepsPromises(s, s.cron[sid], run); NothingSettles(s, u, e, i);
    case ResumeWaiter => WokenWaits(s); NothingSettles(s, u, e, i);
    case Begin(t, ok) => BeginPromises(s, t, ok, i);
    case DispatchResolves(_, _) => NothingSettles(s, u, e, i);
    case DispatchRejects(t, reason) =>
      RejectSettles(s, t, reason);
      SettlesIt(s, u, s.tasks[t].Instance(), TimeoutOutcome("cancelled"), e, i);
    case TurnError(j, m) => TurnErrorMarks(s, j, m, i);
    case AgentEnd(j) =>
      if j in s.pending {
        SettleIs(s, j, s.Verdict(j));
        SettlesIt(s, u, j, s.Verdict(j), e, i);
      } else {
        NothingSettles(s, u, e, i);
      }
    case ObserveTimeout(j) =>
      TimeoutSettles(s, j);
      SettleIs(s, j, TimeoutOutcome("observe timeout"));
      SettlesIt(s, u, j, TimeoutOutcome("observe timeout"), e, i);
    case Conclude(t) =>
      ConcludeKeepsPromises(s, t, s.outcomes[s.tasks[t].Instance()]);
      NothingSettles(s, u, e, i);
    case ReleaseSlot(_) => NothingSettles(s, u, e, i);
    case RetryDue(t) => RetryKeepsPromises(s, t); NothingSettles(s, u, e, i);
    case Delete(_) => NothingSettles(s, u, e, i);
    case Save(rec, valid) => SaveKeepsPromises(s, rec, valid); NothingSettles(s, u, e, i);
    case Stop => StopSettles(s, i);
  }

  lemma BeginPromises(s: State, t: Ticket, ok: bool, i: Instance)
    requires Inv(s) && Enabled(s, Begin(t, ok))
    ensures var u := Then(s, Begin(t, ok)); PromiseSettles(s, u, Begin(t, ok), i)
  {
    hide Inv, Then, BeginStep, PromiseSettles, SamePromises, Watches;
    ThenBegin(s, t, ok);
    PendingIsLogged(s, t);
    BeginWatches(s, t, ok);
    if SamePromises(s, BeginStep(s, t, ok)) {
      NothingSettles(s, BeginStep(s, t, ok), Begin(t, ok), i);
    } else {
      WatchesIt(s, BeginStep(s, t, ok), s.tasks[t].Instance(), Begin(t, ok), i);
    }
  }

  // ---- Schedules and cron jobs ----

  /** The call whose attempt ends for good in the event. */
  function Ending(s: State, e: Event): Option<Ticket> {
    match e
    case Begin(t, ok) =>
      if t in s.tasks && s.tasks[t].attempt == 0 && !ok && s.store.CanStart(s.tasks[t].rec.id, s.tasks[t].run)
      then Some(t) else None
    case DispatchRejects(t, _) => if t in s.tasks then Some(t) else None
    case Conclude(t) =>
      if t in s.tasks && s.tasks[t].Instance() in s.outcomes
         && !(s.outcomes[s.tasks[t].Instance()].ErrorOutcome?
              && TriedAgain(s, s.tasks[t], s.outcomes[s.tasks[t].Instance()].error))
      then Some(t) else None
    case _ => None
  }

  /** The one-shot schedule, as it was fired, that is finished with the event. */
  function Finished(s: State, e: Event): Option<Schedule> {
    var t := Ending(s, e);
    if t.Some? && t.value in s.tasks && s.tasks[t.value].rec.deleteAfterRun && s.tasks[t.value].rec.kind == AtKind
    then Some(s.tasks[t.value].rec) else None
  }

  function Slugged(schedules: map<Id, Schedule>, slug: string): set<Id> {
    set id | id in schedules && schedules[id].slug == slug
  }

  /** A save stores its record and a delete removes the schedules with the slug; so does the
      end of a one-shot schedule, with whatever has its slug. */
  function SchedulesAfter(s: State, e: Event): map<Id, Schedule> {
    match e
    case Delete(slug) => s.store.schedules - Slugged(s.store.schedules, slug)
    case Save(rec, _) => s.store.schedules[rec.id := rec]
    case _ =>
      var done := Finished(s, e);
      if done.None? then s.store.schedules
      else s.store.schedules - Slugged(s.store.schedules, done.value.slug)
  }

  /** Only enabled schedules with a valid pattern have a job; it goes with a pause, a delete, the end, a stop. */
  function CronAfter(s: State, e: Event): map<Id, Schedule> {
    match e
    case Delete(slug) => s.cron - Slugged(s.store.schedules, slug)
    case Save(rec, valid) =>
      if rec.enabled && valid && !s.shuttingDown then s.cron[rec.id := rec] else s.cron - {rec.id}
    case Stop => map[]
    case _ =>
      var done := Finished(s, e);
      if done.None? then s.cron else s.cron - {done.value.id}
  }

  ghost predicate TablesAfter(s: State, u: State, e: Event) {
    u.store.schedules == SchedulesAfter(s, e) && u.cron == CronAfter(s, e)
  }

  lemma EndTables(s: State, t: Ticket, status: Status, error: Option<string>, e: Event)
    requires t in s.tasks && Ending(s, e) == Some(t) && !e.Delete? && !e.Save? && !e.Stop?
    ensures TablesAfter(s, EndAttempt(s, t, status, error), e)
  {
  }

  lemma SameTables(s: State, u: State, e: Event)
    requires u.store.schedules == s.store.schedules && u.cron == s.cron
    requires Ending(s, e).None? && !e.Delete? && !e.Save? && !e.Stop?
    ensures TablesAfter(s, u, e)
  {
  }

  lemma ConcludeTables(s: State, t: Ticket)
    requires Inv(s) && Enabled(s, Conclude(t))
    ensures TablesAfter(s, Then(s, Conclude(t)), Conclude(t))
  {
    hide Inv, Then, EndAttempt, ArmRetry, Retries, TriedAgain, TablesAfter;
    var e := Conclude(t);
    ThenConclude(s, t);
    match s.outcomes[s.tasks[t].Instance()]
    case OkOutcome => EndTables(s, t, Succeeded, None, e);
    case TimeoutOutcome(m) => EndTables(s, t, TimedOut, Some(m), e);
    case ErrorOutcome(m) =>
      RetriesIff(s, s.tasks[t], m);
      if TriedAgain(s, s.tasks[t], m) {
        ArmTables(s, t);
        SameTables(s, ArmRetry(s, t), e);
      } else {
        EndTables(s, t, if IsTransient(s.cfg.classify(m)) then Failed else Skipped, Some(m), e);
      }
  }

  lemma ArmTables(s: State, t: Ticket)
    requires t in s.tasks
    ensures ArmRetry(s, t).store.schedules == s.store.schedules && ArmRetry(s, t).cron == s.cron
  {
  }

  lemma RejectTables(s: State, t: Ticket, reason: string)
    requires Inv(s) && Enabled(s, DispatchRejects(t, reason))
    ensures TablesAfter(s, Then(s, DispatchRejects(t, reason)), DispatchRejects(t, reason))
  {
    hide Inv, Then, EndAttempt, Settle;
    var u := Settle(s, s.tasks[t].Instance(), TimeoutOutcome("cancelled"));
    ThenReject(s, t, reason);
    SettledStore(s, s.tasks[t].Instance(), TimeoutOutcome("cancelled"));
    EndTables(u, t, Failed, Some(reason), DispatchRejects(t, reason));
  }

  lemma BeginTables(s: State, t: Ticket, ok: bool)
    requires Inv(s) && Enabled(s, Begin(t, ok))
    ensures TablesAfter(s, Then(s, Begin(t, ok)), Begin(t, ok))
  {
    hide Inv, Then, EndAttempt, BeginStep, TablesAfter;
    var e := Begin(t, ok);
    var task := s.tasks[t];
    var v := RowStarted(s, task.rec.id, task.run);
    ThenBegin(s, t, ok);
    BeginStepIs(s, t, ok);
    if task.attempt == 0 && s.store.CanStart(task.rec.id, task.run) && !ok {
      SkipTables(s, t);
    } else {
      AttemptTables(s, t);
      AttemptTables(v, t);
      SameTables(s, BeginStep(s, t, ok), e);
    }
  }

  lemma AttemptTables(s: State, t: Ticket)
    requires t in s.tasks
    ensures BeginAttempt(s, t).store.schedules == s.store.schedules && BeginAttempt(s, t).cron == s.cron
    ensures SetPhase(s, t, Releasing).store == s.store && SetPhase(s, t, Releasing).cron == s.cron
  {
  }

  lemma SkipTables(s: State, t: Ticket)
    requires t in s.tasks && s.tasks[t].attempt == 0 && s.store.CanStart(s.tasks[t].rec.id, s.tasks[t].run)
    ensures TablesAfter(
              s, EndAttempt(RowStarted(s, s.tasks[t].rec.id, s.tasks[t].run), t, Skipped,
                            Some("provider endpoint unavailable")), Begin(t, false))
  {
  }

  lemma DeleteTables(s: State, slug: string)
    requires Inv(s) && Enabled(s, Delete(slug))
    ensures TablesAfter(s, Then(s, Delete(slug)), Delete(slug))
  {
    hide Inv, Then;
    var id := ThenDelete(s, slug);
    assert Slugged(s.store.schedules, slug) == s.store.WithSlug(slug);
  }

  lemma SaveTables(s: State, rec: Schedule, valid: bool)
    ensures TablesAfter(s, Sync(Saved(s, rec), rec, valid), Save(rec, valid))
  {
  }

  lemma FireTables(s: State, rec: Schedule, run: Id)
    ensures Fire(s, rec, run).store == s.store && Fire(s, rec, run).cron == s.cron
  {
    hide Acquire;
  }

  lemma RetryTables(s: State, t: Ticket)
    requires t in s.tasks
    ensures RetryStep(s, t).store == s.store && RetryStep(s, t).cron == s.cron
  {
    hide Acquire, TimersOf;
  }

  /** The table of schedules and the cron jobs after any event. */
  lemma NextTables(s: State, e: Event)
    requires Inv(s) && Enabled(s, e)
    ensures TablesAfter(s, Then(s, e), e)
  {
    hide Fire, EndAttempt, BeginStep, RejectStep, ConcludeStep, RetryStep, DeleteStep, Sync, Saved, Settle,
         GateLinked, RowsSound, TasksSound, RowsAgree, OpenRowsCarried, AbandonedSound, ObservationsSound,
         LogSound, LogBehind, TimersTracked, NoIdleSlot, GateInv, TheId, Acquire, Release, Resume, AllTimers, RunsOf,
         TablesAfter;
    StoreUnique(s);
    var u := Then(s, e);
    match e
    case FireNow(slug, run) => FireTables(s, s.store.schedules[TheId(s.store, slug)], run); SameTables(s, u, e);
    case CronTick(sid, run) => FireTables(s, s.cron[sid], run); SameTables(s, u, e);
    case ResumeWaiter => WokenWaits(s); SameTables(s, u, e);
    case Begin(t, ok) => BeginTables(s, t, ok);
    case DispatchResolves(_, _) => SameTables(s, u, e);
    case DispatchRejects(t, reason) => RejectTables(s, t, reason);
    case TurnError(_, _) => SameTables(s, u, e);
    case AgentEnd(i) =>
      if i in s.pending {
        SettledStore(s, i, s.Verdict(i));
      }
      SameTables(s, u, e);
    case ObserveTimeout(_) => SameTables(s, u, e);
    case Conclude(t) => ConcludeTables(s, t);
    case ReleaseSlot(_) => SameTables(s, u, e);
    case RetryDue(t) => RetryTables(s, t); SameTables(s, u, e);
    case Delete(slug) => DeleteTables(s, slug);
    case Save(rec, valid) => SaveTables(s, rec, valid);
    case Stop => StopTables(s);
  }

  lemma StopTables(s: State)
    ensures TablesAfter(s, StopStep(s), Stop)
  {
    hide AllTimers, RunsOf;
  }

  /** What a fire, by hand or by a job, sets going: the first attempt of the run, with the record
      of the schedule, or of the job, as it is at that moment; after a stop, nothing. */
  lemma Fires(s: State, e: Event)
    requires Inv(s) && Enabled(s, e) && (e.FireNow? || e.CronTick?)
    ensures var u := Then(s, e);
      if s.shuttingDown then u == s
      else
        && u.tasks.Keys == s.tasks.Keys + {s.next} && u.fired.Keys == s.fired.Keys + {e.run}
        && u.tasks[s.next].(phase := Gated) == Task(u.fired[e.run], e.run, 0, Gated)
        && (u.tasks[s.next].phase == if s.gate.inFlight < s.cfg.maxConcurrentRuns then Slotted else Gated)
        && (if e.FireNow? then u.fired[e.run] in s.store.schedules.Values && u.fired[e.run].slug == e.slug
            else u.fired[e.run] == s.cron[e.sid])
  {
    hide Inv, Fire, Acquire;
    StoreUnique(s);
    if e.FireNow? {
      var id := TheId(s.store, e.slug);
      assert id in s.store.WithSlug(e.slug);
    }
    if !s.shuttingDown {
      FireGives(s, if e.FireNow? then s.store.schedules[TheId(s.store, e.slug)] else s.cron[e.sid], e.run);
    } else {
      FireIs(s, if e.FireNow? then s.store.schedules[TheId(s.store, e.slug)] else s.cron[e.sid], e.run);
    }
  }
}
