/**
 The manager itself: its fields, and one method per piece of code that runs
 between two awaits, each proved to take exactly the step of the state machine.
 */
module ScheduleManagement {
  import opened Basics
  import opened ScheduleTypes
  import opened ScheduleGate
  import opened ScheduleState
  import opened ScheduleInvariant
  import opened ScheduleTheorems

  /** The schedules and schedule_runs tables; every method is one statement. */
  class ScheduleStore {
    var schedules: map<Id, Schedule>
    var runs: map<Id, RunRow>

    constructor (schedules: map<Id, Schedule>, runs: map<Id, RunRow>)
      ensures View() == Store(schedules, runs)
    {
      this.schedules, this.runs := schedules, runs;
    }

    ghost function View(): Store
      reads this
    {
      Store(schedules, runs)
    }

    method GetBySlug(slug: string) returns (r: Option<Schedule>)
      requires SlugsUnique(schedules)
      ensures r.None? <==> View().WithSlug(slug) == {}
      ensures r.Some? ==> View().WithSlug(slug) == {r.value.id} && r.value == schedules[r.value.id]
    {
      var left := schedules.Keys;
      while left != {}
        invariant left <= schedules.Keys
        invariant View().WithSlug(slug) <= left
        decreases left
      {
        var id :| id in left;
        if schedules[id].slug == slug {
          assert id in View().WithSlug(slug);
          return Some(schedules[id]);
        }
        left := left - {id};
      }
      return None;
    }

    method Delete(slug: string)
      modifies this
      ensures View() == old(View()).Without(old(View()).WithSlug(slug))
    {
      var gone := set id | id in schedules && schedules[id].slug == slug;
      schedules, runs := schedules - gone, map r | r in runs && runs[r].sid !in gone :: runs[r];
    }

    /** Rewrites the row that has the slug, keeping its id, unless the caller wants a new
        one; else inserts a row under a fresh id. A definition that is not valid changes nothing. */
    method Upsert(def: Definition, valid: bool, mergeExisting: bool, freshId: Id) returns (r: Option<Schedule>)
      requires SlugsUnique(schedules)
      modifies this`schedules
      ensures var same := old(View()).WithSlug(def.slug);
        && (r.Some? <==> valid && (same == {} || mergeExisting))
        && (r.Some? ==> r.value == def.As(r.value.id)
                        && (if same == {} then r.value.id == freshId else same == {r.value.id})
                        && schedules == old(schedules)[r.value.id := r.value])
        && (r.None? ==> schedules == old(schedules))
    {
      if !valid {
        return None;
      }
      var existing := GetBySlug(def.slug);
      if existing.Some? && !mergeExisting {
        return None;
      }
      var rec := def.As(if existing.Some? then existing.value.id else freshId);
      schedules := schedules[rec.id := rec];
      return Some(rec);
    }

    /** Pauses or resumes the schedule with the slug, if there is one. */
    method SetEnabled(slug: string, enabled: bool) returns (r: Option<Schedule>)
      requires SlugsUnique(schedules)
      modifies this`schedules
      ensures var same := old(View()).WithSlug(slug);
        && (r.Some? <==> same != {})
        && (r.Some? ==> same == {r.value.id} && r.value == old(schedules)[r.value.id].(enabled := enabled)
                        && schedules == old(schedules)[r.value.id := r.value])
        && (r.None? ==> schedules == old(schedules))
    {
      var existing := GetBySlug(slug);
      if existing.None? {
        return None;
      }
      var rec := existing.value.(enabled := enabled);
      schedules := schedules[rec.id := rec];
      return Some(rec);
    }

    /** Fails, as the insert does, for a missing schedule or a used run id. */
    method RecordRunStart(sid: Id, run: Id) returns (ok: bool)
      modifies this`runs
      ensures ok == old(View()).CanStart(sid, run)
      ensures View() == if ok then old(View()).Started(sid, run) else old(View())
    {
      ok := sid in schedules && run !in runs;
      if ok {
        runs := runs[run := RunRow(sid, Instance(sid, run, 0), None, Queued, None, 0)];
      }
    }

    method RecordRunAdmitted(run: Id, dispatchId: string)
      modifies this`runs
      ensures View() == old(View()).Admit(run, dispatchId)
    {
      if run in runs {
        runs := runs[run := runs[run].(dispatchId := Some(dispatchId), status := Admitted)];
      }
    }

    method RecordRunTerminal(run: Id, status: Status, error: Option<string>)
      requires Terminal(status)
      modifies this`runs
      ensures View() == old(View()).Finish(run, status, error)
    {
      if run in runs {
        runs := runs[run := runs[run].(status := status, error := error)];
      }
    }

    method RecordRunRetry(run: Id, instance: Instance)
      modifies this`runs
      ensures View() == old(View()).Retry(run, instance)
    {
      if run in runs {
        var row := runs[run];
        runs := runs[run := row.(instance := instance, dispatchId := None, status := Queued,
                                 error := None, attempt := row.attempt + 1)];
      }
    }
  }

  class ScheduleManager {
    const cfg: Config
    const store: ScheduleStore
    var cronJobs: map<Id, Schedule>
    var pending: map<Instance, Observation>
    var retryTimers: map<Id, set<Ticket>>
    var fireQueue: seq<Ticket>
    var inFlight: int
    var shuttingDown: bool

    // The runtime's side: suspended calls, armed timers, resolved promises.
    var tasks: map<Ticket, Task>
    var woken: seq<Ticket>
    var observeTimers: set<Instance>
    var outcomes: map<Instance, Outcome>
    var next: Ticket

    ghost var holders: set<Ticket>
    ghost var arrivals: seq<Ticket>
    ghost var served: seq<Ticket>
    ghost var fired: map<Id, Schedule>
    ghost const legacy: set<Id>
    ghost var known: set<Id>
    ghost var abandoned: set<Id>
    ghost var log: seq<Instance>

    ghost function GateView(): Gate
      reads this`inFlight, this`fireQueue, this`woken, this`holders, this`arrivals, this`served
    {
      Gate(inFlight, fireQueue, woken, holders, arrivals, served)
    }

    ghost function View(): State
      reads this, store
    {
      State(cfg, store.View(), GateView(), cronJobs,
            pending, observeTimers, outcomes, retryTimers, shuttingDown, tasks, next,
            fired, legacy, known, abandoned, log)
    }

    ghost predicate Valid()
      reads this, store
    {
      Inv(View())
    }

    /** Boot over the tables an earlier process left. */
    constructor (cfg: Config, store: ScheduleStore)
      requires SlugsUnique(store.schedules)
      requires forall r :: r in store.runs ==> store.runs[r].sid in store.schedules
      ensures this.cfg == cfg && this.store == store
      ensures Valid() && Booted(View())
    {
      this.cfg, this.store := cfg, store;
      cronJobs, pending, retryTimers, fireQueue := map[], map[], map[], [];
      inFlight, shuttingDown := 0, false;
      tasks, woken, observeTimers, outcomes, next := map[], [], {}, map[], 0;
      holders, arrivals, served := {}, [], [];
      fired, legacy, known, abandoned, log := map[], store.runs.Keys, store.schedules.Keys, {}, [];
      new;
      BootedInv(View());
    }

    // ---- The gate ----

    /** Counts the caller in, or suspends it at the end of the queue. */
    method AcquireConcurrency(t: Ticket) returns (waits: bool)
      modifies this`inFlight, this`fireQueue, this`holders, this`arrivals
      ensures waits == (old(inFlight) >= cfg.maxConcurrentRuns)
      ensures GateView() == Acquire(old(GateView()), cfg.maxConcurrentRuns, t)
    {
      waits := inFlight >= cfg.maxConcurrentRuns;
      if waits {
        fireQueue := fireQueue + [t];
        arrivals := arrivals + [t];
      } else {
        inFlight := inFlight + 1;
        holders := holders + {t};
      }
    }

    method ReleaseConcurrency(t: Ticket)
      modifies this`inFlight, this`fireQueue, this`woken, this`holders
      ensures GateView() == Release(old(GateView()), t)
    {
      inFlight := inFlight - 1;
      holders := holders - {t};
      if fireQueue != [] {
        var head := fireQueue[0];
        fireQueue := fireQueue[1..];
        woken := woken + [head];
      }
    }

    /** The oldest woken caller runs on; shutdown turns it away. */
    method ResumeAcquire() returns (t: Ticket, admitted: bool)
      requires woken != []
      modifies this`inFlight, this`woken, this`holders, this`served
      ensures t == old(woken[0]) && admitted == !shuttingDown
      ensures GateView() == Resume(old(GateView()), shuttingDown)
    {
      t := woken[0];
      woken := woken[1..];
      served := served + [t];
      admitted := !shuttingDown;
      if admitted {
        inFlight := inFlight + 1;
        holders := holders + {t};
      }
    }

    method EnterTheGate(t: Ticket)
      requires t in tasks
      modifies this`inFlight, this`fireQueue, this`holders, this`arrivals, this`tasks
      ensures View() == EnterGate(old(View()), t)
    {
      EnterGateIs(View(), t);
      hide *;
      var waits := TryAcquire(t);
      MoveTo(t, if waits then Gated else Slotted);
    }

    method TryAcquire(t: Ticket) returns (waits: bool)
      modifies this`inFlight, this`fireQueue, this`holders, this`arrivals
      ensures waits == (old(inFlight) >= cfg.maxConcurrentRuns)
      ensures View() == AtGate(old(View()), t)
    {
      hide Acquire;
      waits := AcquireConcurrency(t);
    }

    method MoveTo(t: Ticket, phase: Phase)
      requires t in tasks
      modifies this`tasks
      ensures View() == SetPhase(old(View()), t, phase)
    {
      tasks := tasks[t := tasks[t].(phase := phase)];
    }

    method WaiterRuns()
      requires Valid() && woken != []
      modifies this`inFlight, this`woken, this`holders, this`served, this`tasks, this`abandoned
      ensures old(woken[0] in tasks) && View() == ResumeStep(old(View()))
      ensures Valid()
    {
      ResumeStepKeeps(View());
      ResumeStepIs(View());
      hide *;
      var t, admitted := NextWoken();
      if admitted {
        MoveTo(t, Slotted);
      } else {
        TurnAway(t);
      }
    }

    method NextWoken() returns (t: Ticket, admitted: bool)
      requires woken != []
      modifies this`inFlight, this`woken, this`holders, this`served
      ensures t == old(woken[0]) && admitted == !shuttingDown
      ensures View() == Resumed(old(View()))
    {
      hide Resume;
      t, admitted := ResumeAcquire();
    }

    method TurnAway(t: Ticket)
      requires t in tasks
      modifies this`tasks, this`abandoned
      ensures View() == TurnedAway(old(View()), t)
    {
      abandoned := abandoned + (if tasks[t].attempt > 0 then {tasks[t].run} else {});
      tasks := tasks - {t};
    }

    /** The call's finally block: give the slot back. */
    method CallEnds(t: Ticket)
      requires Valid() && InPhase(View(), t, Releasing)
      modifies this`inFlight, this`fireQueue, this`woken, this`holders, this`tasks
      ensures View() == ReleaseStep(old(View()), t)
      ensures Valid()
    {
      hide Inv, Release;
      ReleaseSlotKeeps(View(), t);
      ReleaseConcurrency(t);
      tasks := tasks - {t};
    }

    // ---- Observations ----

    /** Resolve a pending observation and clear its timer; a no-op once it has settled. */
    method Resolve(i: Instance, outcome: Outcome)
      requires Valid()
      modifies this`pending, this`observeTimers, this`outcomes
      ensures View() == Settle(old(View()), i, outcome)
      ensures Valid()
    {
      hide Inv;
      SettleKeeps(View(), i, outcome);
      if i in pending {
        observeTimers := observeTimers - {i};
        pending := pending - {i};
        outcomes := outcomes[i := outcome];
      }
    }

    /** The timer resolves the promise without asking; it settles a pending one all the same. */
    method ObserveTimedOut(i: Instance)
      requires Valid() && i in observeTimers
      modifies this`pending, this`observeTimers, this`outcomes
      ensures View() == TimeoutStep(old(View()), i)
      ensures Valid()
      ensures View() == Settle(old(View()), i, TimeoutOutcome("observe timeout"))
    {
      hide Inv;
      TimeoutSettles(View(), i);
      SettleKeeps(View(), i, TimeoutOutcome("observe timeout"));
      observeTimers := observeTimers - {i};
      if i in pending {
        pending := pending - {i};
      }
      if i !in outcomes {
        outcomes := outcomes[i := TimeoutOutcome("observe timeout")];
      }
    }

    /** One agent event. `isError` is only looked at on turn events. */
    method HandleEvent(i: Instance, isTurn: bool, isError: bool, isEnd: bool, message: string)
      requires Valid() && !(isTurn && isEnd)
      modifies this`pending, this`observeTimers, this`outcomes
      ensures Valid()
      ensures View() == AgentEvent(old(View()), i, isTurn, isError, isEnd, message)
    {
      hide Inv;
      if i !in pending {
        return;
      }
      if isTurn && isError {
        TurnErrorKeeps(View(), i, message);
        pending := pending[i := Observation(true, message)];
        return;
      }
      if isEnd {
        var observed := pending[i];
        Resolve(i, if observed.hadError then ErrorOutcome(observed.errorMessage) else OkOutcome);
      }
    }

    /** The one pending observation that an event's instance id names, if any. */
    method Route(id: string) returns (r: Option<Instance>)
      requires forall i :: i in pending ==> UlidShaped(i)
      ensures r.Some? ==> r.value in pending && InstanceId(r.value) == id
                          && forall i :: i in pending && InstanceId(i) == id ==> i == r.value
      ensures r.None? ==> forall i :: i in pending ==> InstanceId(i) != id
    {
      var left := pending.Keys;
      while left != {}
        invariant left <= pending.Keys
        invariant forall i :: i in pending && InstanceId(i) == id ==> i in left
        decreases left
      {
        var i :| i in left;
        if InstanceId(i) == id {
          forall j | j in pending && InstanceId(j) == id ensures j == i {
            InstanceIdInjective(i, j);
          }
          return Some(i);
        }
        left := left - {i};
      }
      return None;
    }

    /** Events carry their instance id as text; one that names nothing pending changes nothing. */
    method HandleAgentEvent(id: string, isTurn: bool, isError: bool, isEnd: bool, message: string)
      requires Valid() && !(isTurn && isEnd) && forall i :: i in pending ==> UlidShaped(i)
      modifies this`pending, this`observeTimers, this`outcomes
      ensures Valid()
      ensures (forall i :: i in old(pending) ==> InstanceId(i) != id) ==> View() == old(View())
      ensures forall i :: i in old(pending) && InstanceId(i) == id ==>
        View() == AgentEvent(old(View()), i, isTurn, isError, isEnd, message)
    {
      hide Inv;
      var named := Route(id);
      if named.Some? {
        HandleEvent(named.value, isTurn, isError, isEnd, message);
      }
    }

    // ---- Retry timers ----

    /** Clear every timer of a set; pausing or stopping abandons their runs. */
    method ClearTimers(timers: set<Ticket>, ghost s: State, ghost abandons: bool)
      requires s.tasks == tasks
      modifies this`tasks, this`abandoned
      ensures tasks == s.tasks - timers
      ensures abandoned == if abandons then old(abandoned) + RunsOf(s, timers) else old(abandoned)
    {
      var left := timers;
      while left != {}
        invariant left <= timers
        invariant tasks == s.tasks - (timers - left)
        invariant abandoned == if abandons then old(abandoned) + RunsOf(s, timers - left) else old(abandoned)
        decreases left
      {
        var t :| t in left;
        ghost var done := timers - left;
        left := left - {t};
        assert timers - left == done + {t};
        if t in tasks {
          abandoned := abandoned + if abandons then {tasks[t].run} else {};
        }
        tasks := tasks - {t};
      }
      assert timers - left == timers;
    }

    method CancelRetriesFor(sid: Id, ghost abandons: bool)
      modifies this`tasks, this`retryTimers, this`abandoned
      ensures var s := old(View());
        View() == CancelRetries(s, sid).(abandoned :=
                    if abandons then s.abandoned + RunsOf(s, TimersOf(s, sid)) else s.abandoned)
    {
      if sid in retryTimers {
        ClearTimers(retryTimers[sid], View(), abandons);
      } else {
        assert tasks - {} == tasks;
      }
      retryTimers := retryTimers - {sid};
    }

    // ---- Attempts ----

    /** Register the observation, then dispatch. */
    method BeginRunAttempt(t: Ticket)
      requires t in tasks
      modifies this`pending, this`observeTimers, this`tasks, this`log
      ensures View() == BeginAttempt(old(View()), t)
    {
      var i := tasks[t].Instance();
      pending := pending[i := Observation(false, "")];
      observeTimers := observeTimers + {i};
      tasks := tasks[t := tasks[t].(phase := Dispatching)];
      log := log + [i];
    }

    method MaybeAutoDelete(rec: Schedule)
      modifies this`cronJobs, store
      ensures View() == AutoDelete(old(View()), rec)
    {
      if rec.deleteAfterRun && rec.kind == AtKind {
        StopCron(rec.id);
        store.Delete(rec.slug);
      }
    }

    method StopCron(sid: Id)
      modifies this`cronJobs
      ensures View() == Uncron(old(View()), sid)
    {
      cronJobs := cronJobs - {sid};
    }

    /** Record the terminal status, then auto-delete; the slot is given back later. */
    method FinishAttempt(t: Ticket, status: Status, error: Option<string>)
      requires t in tasks && Terminal(status)
      modifies this`cronJobs, this`tasks, store
      ensures View() == EndAttempt(old(View()), t, status, error)
    {
      var task := tasks[t];
      store.RecordRunTerminal(task.run, status, error);
      tasks := tasks[t := task.(phase := Releasing)];
      MaybeAutoDelete(task.rec);
    }

    /** The caller continues with its slot: start the row, preflight, first dispatch; or a retry's dispatch. */
    method Continue(t: Ticket, preflightOk: bool)
      requires Valid() && InPhase(View(), t, Slotted)
      modifies this`pending, this`observeTimers, this`tasks, this`log, this`cronJobs, store
      ensures View() == BeginStep(old(View()), t, preflightOk)
      ensures Valid()
    {
      BeginKeeps(View(), t, preflightOk);
      BeginStepIs(View(), t, preflightOk);
      hide *;
      var task := tasks[t];
      if task.attempt > 0 {
        BeginRunAttempt(t);
        return;
      }
      var started := StartRow(task.rec.id, task.run);
      if !started {
        MoveTo(t, Releasing);
      } else if !preflightOk {
        FinishAttempt(t, Skipped, Some("provider endpoint unavailable"));
      } else {
        BeginRunAttempt(t);
      }
    }

    method StartRow(sid: Id, run: Id) returns (ok: bool)
      modifies store`runs
      ensures ok == old(store.View()).CanStart(sid, run)
      ensures View() == if ok then RowStarted(old(View()), sid, run) else old(View())
    {
      ok := store.RecordRunStart(sid, run);
    }

    method DispatchResolved(t: Ticket, dispatchId: string)
      requires Valid() && InPhase(View(), t, Dispatching)
      modifies this`tasks, store`runs
      ensures View() == AdmitStep(old(View()), t, dispatchId)
      ensures Valid()
    {
      hide Inv;
      AdmitKeeps(View(), t, dispatchId);
      store.RecordRunAdmitted(tasks[t].run, dispatchId);
      tasks := tasks[t := tasks[t].(phase := Observing)];
    }

    /** Admission failed: cancel the observation and end the run, without a retry. */
    method DispatchRejected(t: Ticket, reason: string)
      requires Valid() && InPhase(View(), t, Dispatching)
      modifies this`pending, this`observeTimers, this`outcomes, this`cronJobs, this`tasks, store
      ensures View() == RejectStep(old(View()), t, reason)
      ensures Valid()
    {
      hide Inv, EndAttempt;
      RejectKeeps(View(), t, reason);
      Resolve(tasks[t].Instance(), TimeoutOutcome("cancelled"));
      FinishAttempt(t, Failed, Some(reason));
    }

    /** Advance the row to the next attempt and arm its backoff timer under the schedule. */
    method ScheduleRetry(t: Ticket)
      requires t in tasks
      modifies this`tasks, this`retryTimers, this`next, store`runs
      ensures View() == ArmRetry(old(View()), t)
    {
      ArmRetryIs(View(), t);
      hide *;
      var task := tasks[t];
      RequeueRow(task);
      MoveTo(t, Releasing);
      AddRetryTimer(Again(task));
    }

    method RequeueRow(task: Task)
      modifies store`runs
      ensures View() == Requeued(old(View()), task)
    {
      store.RecordRunRetry(task.run, Again(task).Instance());
    }

    method AddRetryTimer(task: Task)
      modifies this`tasks, this`retryTimers, this`next
      ensures View() == Armed(old(View()), task)
    {
      var sid := task.rec.id;
      retryTimers := retryTimers[sid := (if sid in retryTimers then retryTimers[sid] else {}) + {next}];
      tasks := tasks[next := task];
      next := next + 1;
    }

    /** The awaited outcome arrives. */
    method OutcomeArrived(t: Ticket)
      requires Valid() && InPhase(View(), t, Observing) && tasks[t].Instance() in outcomes
      modifies this`tasks, this`retryTimers, this`next, this`cronJobs, store
      ensures View() == old(ConcludeStep(View(), t, outcomes[tasks[t].Instance()]))
      ensures Valid()
    {
      hide Inv, EndAttempt, ArmRetry;
      ConcludeKeeps(View(), t);
      match outcomes[tasks[t].Instance()]
      case OkOutcome => FinishAttempt(t, Succeeded, None);
      case TimeoutOutcome(m) => FinishAttempt(t, TimedOut, Some(m));
      case ErrorOutcome(m) =>
        var category := cfg.classify(m);
        if IsTransient(category) && category in cfg.retryOn && tasks[t].attempt < Budget(tasks[t].rec, cfg) {
          ScheduleRetry(t);
        } else {
          FinishAttempt(t, if IsTransient(category) then Failed else Skipped, Some(m));
        }
    }

    // ---- Fires ----

    method FireRecord(rec: Schedule, run: Id)
      requires Valid() && FreshRun(View(), run)
      modifies this`tasks, this`next, this`fired, this`inFlight, this`fireQueue, this`holders, this`arrivals
      ensures View() == Fire(old(View()), rec, run)
      ensures Valid()
    {
      FireKeeps(View(), rec, run);
      FireIs(View(), rec, run);
      hide *;
      if !shuttingDown {
        Arrive(rec, run);
        EnterTheGate(next - 1);
      }
    }

    /** A new call of the fire routine. */
    method Arrive(rec: Schedule, run: Id)
      modifies this`tasks, this`next, this`fired
      ensures next == old(next) + 1 && old(next) in tasks && View() == Arrived(old(View()), rec, run)
    {
      tasks := tasks[next := Task(rec, run, 0, Gated)];
      fired := fired[run := rec];
      next := next + 1;
    }

    method RunNow(slug: string, run: Id) returns (accepted: bool)
      requires Valid() && FreshRun(View(), run)
      modifies this`tasks, this`next, this`fired, this`inFlight, this`fireQueue, this`holders, this`arrivals
      ensures Valid() && accepted == (old(View()).store.WithSlug(slug) != {})
      ensures SlugsUnique(old(View()).store.schedules)
      ensures View() == if accepted then Fire(old(View()), old(store.schedules)[TheId(old(View()).store, slug)], run)
                        else old(View())
    {
      StoreUnique(View());
      hide Inv, Fire;
      var found := store.GetBySlug(slug);
      match found
      case None => return false;
      case Some(rec) =>
        FireRecord(rec, run);
        return true;
    }

    method RetryFire(t: Ticket)
      requires Valid() && InPhase(View(), t, Backoff)
      modifies this`tasks, this`retryTimers, this`abandoned, this`inFlight, this`fireQueue, this`holders, this`arrivals
      ensures View() == RetryStep(old(View()), t)
      ensures Valid()
    {
      hide Inv, Acquire, TimersOf, TimerFired, CancelRetries, EnterGate;
      RetryKeeps(View(), t);
      var task := tasks[t];
      ForgetTimer(t);
      if shuttingDown {
        tasks := tasks - {t};
        abandoned := abandoned + {task.run};
      } else if task.rec.id !in store.schedules {
        tasks := tasks - {t};
        CancelRetriesFor(task.rec.id, false);
        CancelKeepsAbandoned(old(View()), t);
      } else {
        EnterTheGate(t);
      }
    }

    method ForgetTimer(t: Ticket)
      requires t in tasks
      modifies this`retryTimers
      ensures View() == TimerFired(old(View()), t)
    {
      var sid := tasks[t].rec.id;
      if sid in retryTimers {
        retryTimers := retryTimers[sid := retryTimers[sid] - {t}];
      }
    }

    // ---- Schedules ----

    method SyncCron(rec: Schedule, validPattern: bool)
      requires Valid()
      modifies this`cronJobs, this`tasks, this`retryTimers, this`abandoned
      ensures View() == Sync(old(View()), rec, validPattern)
      ensures Valid()
    {
      hide Inv;
      SyncKeeps(View(), rec, validPattern);
      if !rec.enabled || shuttingDown {
        cronJobs := cronJobs - {rec.id};
        CancelRetriesFor(rec.id, true);
        return;
      }
      if !validPattern {
        cronJobs := cronJobs - {rec.id};
        return;
      }
      cronJobs := cronJobs[rec.id := rec];
    }

    /** What every tool and route does that creates or rewrites a schedule: upsert, then sync. */
    method SaveSchedule(def: Definition, valid: bool, mergeExisting: bool, freshId: Id, validPattern: bool)
      returns (r: Option<Schedule>)
      requires Valid() && freshId !in known
      modifies this`cronJobs, this`tasks, this`retryTimers, this`abandoned, this`known, store`schedules
      ensures r.Some? <==> valid && (old(View()).store.WithSlug(def.slug) == {} || mergeExisting)
      ensures r.Some? ==> r.value == def.As(r.value.id) && CanSave(old(View()), r.value)
      ensures View() == if r.Some? then Sync(Saved(old(View()), r.value), r.value, validPattern) else old(View())
      ensures Valid()
    {
      ghost var s := View();
      StoreUnique(s);
      hide Inv, Sync;
      r := store.Upsert(def, valid, mergeExisting, freshId);
      if r.Some? {
        SaveAndSync(s, r.value, validPattern);
      }
    }

    /** Pausing and resuming: the same for the flag alone. */
    method SetScheduleEnabled(slug: string, enabled: bool, validPattern: bool) returns (r: Option<Schedule>)
      requires Valid()
      modifies this`cronJobs, this`tasks, this`retryTimers, this`abandoned, this`known, store`schedules
      ensures r.Some? <==> old(View()).store.WithSlug(slug) != {}
      ensures r.Some? ==> r.value.slug == slug && r.value.enabled == enabled && CanSave(old(View()), r.value)
      ensures View() == if r.Some? then Sync(Saved(old(View()), r.value), r.value, validPattern) else old(View())
      ensures Valid()
    {
      ghost var s := View();
      StoreUnique(s);
      hide Inv, Sync;
      r := store.SetEnabled(slug, enabled);
      if r.Some? {
        assert r.value.id in s.store.WithSlug(slug);
        SaveAndSync(s, r.value, validPattern);
      }
    }

    method SaveAndSync(ghost s: State, rec: Schedule, validPattern: bool)
      requires Inv(s) && CanSave(s, rec)
      requires View() == s.(store := s.store.(schedules := s.store.schedules[rec.id := rec]))
      modifies this`cronJobs, this`tasks, this`retryTimers, this`abandoned, this`known
      ensures View() == Sync(Saved(s, rec), rec, validPattern)
      ensures Valid()
    {
      hide Inv, Sync, CanSave;
      SaveKeeps(s, rec, validPattern);
      known := known + {rec.id};
      SyncCron(rec, validPattern);
    }

    method DeleteSchedule(slug: string) returns (deleted: bool)
      requires Valid()
      modifies this`cronJobs, this`tasks, this`retryTimers, this`abandoned, store
      ensures deleted == (old(View()).store.WithSlug(slug) != {})
      ensures SlugsUnique(old(View()).store.schedules)
      ensures View() == if deleted then DeleteStep(old(View()), TheId(old(View()).store, slug)) else old(View())
      ensures Valid()
    {
      StoreUnique(View());
      hide *;
      var found := store.GetBySlug(slug);
      deleted := found.Some?;
      if deleted {
        DeleteKeeps(View(), found.value.id);
        TheIdIs(View().store, slug, found.value.id);
        DeleteFound(found.value.id, slug);
      }
    }

    method DeleteFound(id: Id, slug: string)
      requires store.View().WithSlug(slug) == {id}
      modifies this`cronJobs, this`tasks, this`retryTimers, this`abandoned, store
      ensures View() == DeleteStep(old(View()), id)
    {
      DeleteStepIs(View(), id);
      hide *;
      CancelRetriesFor(id, false);
      StopCron(id);
      DeleteRow(id, slug);
    }

    method DeleteRow(id: Id, slug: string)
      requires store.View().WithSlug(slug) == {id}
      modifies store
      ensures View() == Unstored(old(View()), id)
    {
      store.Delete(slug);
    }

    /** Clear every armed retry timer of every schedule. */
    method ClearAllTimers(ghost s: State)
      requires s.tasks == tasks && s.retryTimers == retryTimers && s.abandoned == abandoned
      modifies this`tasks, this`abandoned, this`retryTimers
      ensures retryTimers == map[] && tasks == s.tasks - AllTimers(s)
      ensures abandoned == s.abandoned + RunsOf(s, AllTimers(s))
    {
      hide RunsOf, AllTimers;
      var left := retryTimers.Keys;
      ghost var cleared: set<Ticket> := {};
      RunsOfNone(s);
      TimersOutside(s, left);
      while left != {}
        invariant retryTimers == s.retryTimers && left <= retryTimers.Keys
        invariant cleared == AllTimers(s.(retryTimers := s.retryTimers - left))
        invariant tasks == s.tasks - cleared
        invariant abandoned == s.abandoned + RunsOf(s, cleared)
        decreases left
      {
        var sid :| sid in left;
        ClearTimers(retryTimers[sid], s.(tasks := tasks), true);
        RunsOfMore(s, cleared, retryTimers[sid]);
        OneMore(s, left, sid);
        cleared := cleared + retryTimers[sid];
        left := left - {sid};
      }
      assert s.(retryTimers := s.retryTimers - left) == s by {
        assert s.retryTimers - {} == s.retryTimers;
      }
      retryTimers := map[];
    }

    /** Settle whatever is still pending as a timeout. */
    method DrainPending()
      requires pending.Keys == observeTimers
      modifies this`pending, this`observeTimers, this`outcomes
      ensures pending == map[] && observeTimers == {}
      ensures outcomes == old(outcomes) + Drained(old(pending))
    {
      while pending != map[]
        invariant pending.Keys == observeTimers <= old(pending).Keys
        invariant outcomes == old(outcomes) +
          (map i | i in old(pending) && i !in pending :: TimeoutOutcome("shutdown drain"))
        decreases pending.Keys
      {
        var i :| i in pending;
        observeTimers := observeTimers - {i};
        pending := pending - {i};
        outcomes := outcomes[i := TimeoutOutcome("shutdown drain")];
      }
      assert outcomes == old(outcomes) + Drained(old(pending));
    }

    method SettleAll()
      requires View().pending.Keys == View().observeTimers
      modifies this`pending, this`observeTimers, this`outcomes
      ensures View() == AllSettled(old(View()))
    {
      hide Drained;
      assert observeTimers - pending.Keys == {};
      DrainPending();
    }

    /** No more fires: every cron job and every retry timer is gone. */
    method CloseDown()
      modifies this`shuttingDown, this`cronJobs, this`tasks, this`abandoned, this`retryTimers
      ensures View() == ClosedDown(old(View()))
    {
      ClosedDownIs(View());
      hide *;
      StopAccepting();
      DropTimers();
    }

    method StopAccepting()
      modifies this`shuttingDown, this`cronJobs
      ensures View() == Refusing(old(View()))
    {
      shuttingDown := true;
      cronJobs := map[];
    }

    method DropTimers()
      modifies this`tasks, this`abandoned, this`retryTimers
      ensures View() == TimersDropped(old(View()))
    {
      hide RunsOf, AllTimers;
      ClearAllTimers(View());
    }

    method Shutdown()
      requires Valid()
      modifies this`shuttingDown, this`cronJobs, this`tasks, this`abandoned, this`retryTimers,
               this`pending, this`observeTimers, this`outcomes
      ensures View() == StopStep(old(View()))
      ensures Valid()
    {
      StopKeeps(View());
      TimersArePending(View());
      StopStepIs(View());
      hide *;
      CloseDown();
      SettleAll();
    }
  }

  lemma RunsOfNone(s: State)
    ensures RunsOf(s, {}) == {}
  {
  }

  lemma RunsOfMore(s: State, done: set<Ticket>, more: set<Ticket>)
    ensures RunsOf(s, done + more) == RunsOf(s, done) + RunsOf(s.(tasks := s.tasks - done), more)
  {
  }

  lemma TimersOutside(s: State, left: set<Id>)
    requires left == s.retryTimers.Keys
    ensures AllTimers(s.(retryTimers := s.retryTimers - left)) == {}
  {
  }

  lemma OneMore(s: State, left: set<Id>, sid: Id)
    requires sid in left && left <= s.retryTimers.Keys
    ensures AllTimers(s.(retryTimers := s.retryTimers - (left - {sid})))
         == AllTimers(s.(retryTimers := s.retryTimers - left)) + s.retryTimers[sid]
  {
    var before, after := s.retryTimers - left, s.retryTimers - (left - {sid});
    assert after.Keys == before.Keys + {sid} && forall x :: x in after ==> after[x] == s.retryTimers[x];
    forall x, t | x in after && t in after[x] ensures t in AllTimers(s.(retryTimers := before)) + s.retryTimers[sid] {
      assert x == sid || x in before;
    }
    forall x, t | x in before && t in before[x] ensures t in AllTimers(s.(retryTimers := after)) {
      assert x in after && t in after[x];
    }
    forall t | t in s.retryTimers[sid] ensures t in AllTimers(s.(retryTimers := after)) {
      assert t in after[sid];
    }
  }

  lemma CancelKeepsAbandoned(s: State, t: Ticket)
    requires t in s.tasks
    ensures var u := TimerFired(s, t).(tasks := s.tasks - {t});
      CancelRetries(u, s.tasks[t].rec.id).abandoned == s.abandoned
  {
  }
}
