/** What every event of the schedule runtime keeps. */
module ScheduleInvariant {
  import opened Basics
  import opened ScheduleTypes
  import opened ScheduleGate
  import opened ScheduleState

  type Tasks = map<Ticket, Task>

  /** This ticket stands for the call or timer whose turn it is to move the run forward. */
  ghost predicate CarriedBy(tasks: Tasks, run: Id, t: Ticket) {
    t in tasks && tasks[t].Carries() && tasks[t].run == run
  }

  ghost predicate Carried(tasks: Tasks, run: Id) {
    exists t :: CarriedBy(tasks, run, t)
  }

  /** Gate bookkeeping and tasks agree on who waits and who holds a slot. */
  ghost predicate GateLinked(gate: Gate, tasks: Tasks, next: Ticket) {
    && (forall t :: t in gate.queue || t in gate.woken <==> t in tasks && tasks[t].phase == Gated)
    && (forall t :: t in gate.holders <==> t in tasks && tasks[t].HoldsSlot())
    && (forall t :: t in tasks ==> t < next && (tasks[t].phase == Backoff ==> t !in gate.arrivals))
    && (forall t :: t in gate.arrivals ==> t < next)
  }

  ghost predicate RowsSound(store: Store, fired: map<Id, Schedule>, legacy: set<Id>) {
    && SlugsUnique(store.schedules)
    && (forall r :: r in store.runs ==> store.runs[r].sid in store.schedules && (r in fired || r in legacy))
  }

  /** Every task works for a run fired with the record it carries, within the retry budget. */
  ghost predicate TasksSound(cfg: Config, tasks: Tasks, fired: map<Id, Schedule>, legacy: set<Id>) {
    && (forall t :: t in tasks ==>
          var task := tasks[t];
          && task.run in fired && task.run !in legacy
          && fired[task.run] == task.rec
          && task.attempt <= Budget(task.rec, cfg)
          && (task.phase == Backoff ==> task.attempt > 0))
    && (forall t, u | t in tasks && u in tasks ::
          tasks[t].Carries() && tasks[u].Carries() && tasks[t].run == tasks[u].run ==> t == u)
  }

  /** A carrier's row, if it still exists, is open and shows exactly the carrier's attempt. */
  ghost predicate RowAgrees(runs: map<Id, RunRow>, task: Task) {
    task.run in runs ==>
      var row := runs[task.run];
      && row.sid == task.rec.id
      && row.instance == task.Instance()
      && row.attempt == task.attempt
      && row.status == (if task.phase == Observing then Admitted else Queued)
      && (task.Live() || task.attempt > 0)
  }

  ghost predicate RowsAgree(runs: map<Id, RunRow>, tasks: Tasks) {
    forall t :: t in tasks && tasks[t].Carries() ==> RowAgrees(runs, tasks[t])
  }

  /** An open row is carried unless an earlier process left it or its retry was cancelled or turned away. */
  ghost predicate OpenRowsCarried(runs: map<Id, RunRow>, tasks: Tasks, legacy: set<Id>, abandoned: set<Id>) {
    forall r :: r in runs && !Terminal(runs[r].status) && r !in legacy && r !in abandoned
                ==> Carried(tasks, r)
  }

  ghost predicate AbandonedSound(runs: map<Id, RunRow>, tasks: Tasks, fired: map<Id, Schedule>,
                                 legacy: set<Id>, abandoned: set<Id>)
  {
    forall r :: r in abandoned ==>
      && r in fired && r !in legacy && !Carried(tasks, r)
      && (r in runs ==> runs[r].status == Queued)
  }

  ghost predicate ObservedBy(tasks: Tasks, i: Instance, t: Ticket) {
    t in tasks && tasks[t].Live() && tasks[t].Instance() == i
  }

  /** Live attempts are observed, by exactly one of a pending entry and a settled promise. */
  ghost predicate ObservationsSound(tasks: Tasks, pending: map<Instance, Observation>,
                                    timers: set<Instance>, outcomes: map<Instance, Outcome>, log: seq<Instance>)
  {
    && timers == pending.Keys
    && (forall i :: i in pending ==> i !in outcomes && i in log && exists t :: ObservedBy(tasks, i, t))
    && (forall t :: t in tasks && tasks[t].Live() ==>
          tasks[t].Instance() in pending || tasks[t].Instance() in outcomes)
    && (forall i :: i in outcomes ==> i in log)
  }

  /** Nothing is dispatched twice, and never past the retry budget. */
  ghost predicate LogSound(cfg: Config, log: seq<Instance>, fired: map<Id, Schedule>, legacy: set<Id>) {
    && NoDup(log)
    && (forall i :: i in log ==>
          && i.run in fired && i.run !in legacy
          && i.sid == fired[i.run].id
          && i.attempt <= Budget(fired[i.run], cfg))
  }

  /** Whatever a run dispatched so far was for an attempt before its carrier's, or is its live attempt. */
  ghost predicate LogBehind(log: seq<Instance>, tasks: Tasks) {
    forall t, i | t in tasks && tasks[t].Carries() && i in log ::
      i.run == tasks[t].run ==> i.attempt < tasks[t].attempt + (if tasks[t].Live() then 1 else 0)
  }

  /** Every armed retry timer is tracked under its schedule, and nothing else is. */
  ghost predicate TimersTracked(retryTimers: map<Id, set<Ticket>>, tasks: Tasks) {
    && (forall t :: t in tasks && tasks[t].phase == Backoff ==>
          tasks[t].rec.id in retryTimers && t in retryTimers[tasks[t].rec.id])
    && (forall sid, t :: sid in retryTimers && t in retryTimers[sid] ==>
          t in tasks && tasks[t].phase == Backoff && tasks[t].rec.id == sid)
  }

  ghost predicate Inv(s: State) {
    && GateInv(s.gate) && GateLinked(s.gate, s.tasks, s.next)
    && (!s.shuttingDown ==> NoIdleSlot(s.gate, s.cfg.maxConcurrentRuns))
    && RowsSound(s.store, s.fired, s.legacy)
    && s.store.schedules.Keys <= s.known
    && TasksSound(s.cfg, s.tasks, s.fired, s.legacy)
    && RowsAgree(s.store.runs, s.tasks)
    && OpenRowsCarried(s.store.runs, s.tasks, s.legacy, s.abandoned)
    && AbandonedSound(s.store.runs, s.tasks, s.fired, s.legacy, s.abandoned)
    && ObservationsSound(s.tasks, s.pending, s.observeTimers, s.outcomes, s.log)
    && LogSound(s.cfg, s.log, s.fired, s.legacy)
    && LogBehind(s.log, s.tasks)
    && TimersTracked(s.retryTimers, s.tasks)
  }

  /** A freshly booted manager over whatever tables an earlier process left. */
  ghost predicate Booted(s: State) {
    && SlugsUnique(s.store.schedules) && s.store.schedules.Keys <= s.known
    && (forall r :: r in s.store.runs ==> s.store.runs[r].sid in s.store.schedules)
    && s.gate == EMPTY_GATE && s.tasks == map[] && s.pending == map[] && s.observeTimers == {}
    && s.outcomes == map[] && s.retryTimers == map[] && !s.shuttingDown
    && s.fired == map[] && s.legacy == s.store.runs.Keys && s.abandoned == {} && s.log == []
  }

  lemma BootedInv(s: State)
    requires Booted(s)
    ensures Inv(s)
  {
  }

  // ---- Building blocks keep the invariant ----

  lemma SettleKeeps(s: State, i: Instance, o: Outcome)
    requires Inv(s)
    ensures Inv(Settle(s, i, o))
  {
  }

  lemma WithoutKeeps(s: State, gone: set<Id>)
    requires Inv(s)
    ensures Inv(s.(store := s.store.Without(gone)))
  {
  }

  lemma AutoDeleteKeeps(s: State, rec: Schedule)
    requires Inv(s)
    ensures Inv(AutoDelete(s, rec))
  {
    WithoutKeeps(s, s.store.WithSlug(rec.slug));
  }

  // ---- One task changes: what each part of the invariant asks of the change ----

  lemma GateEnters(gate: Gate, max: nat, tasks: Tasks, next: Ticket, t: Ticket, task: Task)
    requires GateLinked(gate, tasks, next)
    requires t !in gate.arrivals && (t in tasks ==> tasks[t].phase == Backoff)
    requires task.phase == if gate.inFlight >= max then Gated else Slotted
    ensures t !in gate.holders
    ensures GateLinked(Acquire(gate, max, t), tasks[t := task], if t < next then next else t + 1)
  {
    var h := Acquire(gate, max, t);
    assert forall x :: x in h.queue <==> x in gate.queue || (x == t && task.phase == Gated);
    assert forall x :: x in h.arrivals <==> x in gate.arrivals || (x == t && task.phase == Gated);
    assert forall x :: x in h.holders <==> x in gate.holders || (x == t && task.phase == Slotted);
  }

  lemma GateSame(gate: Gate, tasks: Tasks, next: Ticket, t: Ticket, task: Task)
    requires GateLinked(gate, tasks, next) && t in tasks
    requires tasks[t].HoldsSlot() && task.HoldsSlot()
    ensures GateLinked(gate, tasks[t := task], next)
  {
  }

  lemma GateWakes(gate: Gate, tasks: Tasks, next: Ticket)
    requires GateInv(gate) && GateLinked(gate, tasks, next) && gate.woken != []
    ensures var t := gate.woken[0];
      && t in tasks && tasks[t].phase == Gated
      && GateLinked(Resume(gate, false), tasks[t := tasks[t].(phase := Slotted)], next)
      && GateLinked(Resume(gate, true), tasks - {t}, next)
  {
    var t := gate.woken[0];
    assert t in gate.woken;
    assert gate.woken == [t] + gate.woken[1..];
    WokenOnce(gate);
  }

  lemma WokenOnce(gate: Gate)
    requires GateInv(gate) && gate.woken != []
    ensures gate.woken[0] !in gate.woken[1..] && gate.woken[0] !in gate.queue && gate.woken[0] !in gate.holders
  {
    var t := gate.woken[0];
    var k := |gate.served|;
    assert gate.arrivals[k] == t;
    forall x | x in gate.woken[1..] || x in gate.queue ensures x != t {
      assert x in gate.woken[1..] + gate.queue;
      assert gate.arrivals[k + 1..] == gate.woken[1..] + gate.queue;
    }
  }

  lemma GateReleases(gate: Gate, tasks: Tasks, next: Ticket, t: Ticket)
    requires GateInv(gate) && GateLinked(gate, tasks, next) && t in tasks && tasks[t].HoldsSlot()
    ensures GateLinked(Release(gate, t), tasks - {t}, next)
  {
    if gate.queue != [] {
      assert gate.queue == [gate.queue[0]] + gate.queue[1..];
    }
  }

  lemma GateForgets(gate: Gate, tasks: Tasks, next: Ticket, gone: set<Ticket>)
    requires GateLinked(gate, tasks, next)
    requires forall t :: t in gone && t in tasks ==> tasks[t].phase == Backoff
    ensures GateLinked(gate, tasks - gone, next)
  {
  }

  lemma PutTask(cfg: Config, tasks: Tasks, fired: map<Id, Schedule>, legacy: set<Id>, t: Ticket, task: Task)
    requires TasksSound(cfg, tasks, fired, legacy)
    requires task.run in fired && task.run !in legacy && fired[task.run] == task.rec
    requires task.attempt <= Budget(task.rec, cfg) && (task.phase == Backoff ==> task.attempt > 0)
    requires task.Carries() ==> forall u :: u != t ==> !CarriedBy(tasks, task.run, u)
    ensures TasksSound(cfg, tasks[t := task], fired, legacy)
  {
    assert forall u :: u in tasks && tasks[u].Carries() ==> CarriedBy(tasks, tasks[u].run, u);
  }

  /** The only carrier of a run stays or becomes `t`. */
  lemma PutCarrier(runs: map<Id, RunRow>, tasks: Tasks, fired: map<Id, Schedule>, legacy: set<Id>,
                   abandoned: set<Id>, t: Ticket, task: Task)
    requires OpenRowsCarried(runs, tasks, legacy, abandoned)
    requires AbandonedSound(runs, tasks, fired, legacy, abandoned)
    requires task.Carries() && task.run !in abandoned
    requires t in tasks && tasks[t].Carries() ==> tasks[t].run == task.run
    ensures OpenRowsCarried(runs, tasks[t := task], legacy, abandoned)
    ensures AbandonedSound(runs, tasks[t := task], fired, legacy, abandoned)
  {
    var after := tasks[t := task];
    assert CarriedBy(after, task.run, t);
    assert forall r, x :: x != t ==> (CarriedBy(tasks, r, x) <==> CarriedBy(after, r, x));
    forall r | Carried(tasks, r) ensures Carried(after, r) {
      var x :| CarriedBy(tasks, r, x);
      assert x == t || CarriedBy(after, r, x);
    }
  }

  lemma PutRow(runs: map<Id, RunRow>, tasks: Tasks, t: Ticket, task: Task)
    requires RowsAgree(runs, tasks) && (task.Carries() ==> RowAgrees(runs, task))
    ensures RowsAgree(runs, tasks[t := task])
  {
  }

  lemma PutLog(log: seq<Instance>, tasks: Tasks, t: Ticket, task: Task)
    requires LogBehind(log, tasks)
    requires task.Carries() ==> forall i | i in log ::
               i.run == task.run ==> i.attempt < task.attempt + (if task.Live() then 1 else 0)
    ensures LogBehind(log, tasks[t := task])
  {
  }

  /** A task that is not live on either side of the change observes nothing. */
  lemma PutUnobserved(tasks: Tasks, pending: map<Instance, Observation>, timers: set<Instance>,
                      outcomes: map<Instance, Outcome>, log: seq<Instance>, t: Ticket, task: Task)
    requires ObservationsSound(tasks, pending, timers, outcomes, log)
    requires (t in tasks ==> !tasks[t].Live()) && !task.Live()
    ensures ObservationsSound(tasks[t := task], pending, timers, outcomes, log)
  {
    assert forall i, x :: ObservedBy(tasks, i, x) ==> ObservedBy(tasks[t := task], i, x);
  }

  lemma PutUntimed(retryTimers: map<Id, set<Ticket>>, tasks: Tasks, t: Ticket, task: Task)
    requires TimersTracked(retryTimers, tasks)
    requires (t in tasks ==> tasks[t].phase != Backoff) && task.phase != Backoff
    ensures TimersTracked(retryTimers, tasks[t := task])
  {
  }

  lemma FiredGrows(s: State, rec: Schedule, run: Id)
    requires Inv(s) && FreshRun(s, run)
    ensures var fired := s.fired[run := rec];
      && RowsSound(s.store, fired, s.legacy)
      && TasksSound(s.cfg, s.tasks, fired, s.legacy)
      && AbandonedSound(s.store.runs, s.tasks, fired, s.legacy, s.abandoned)
      && LogSound(s.cfg, s.log, fired, s.legacy)
      && run !in s.store.runs && run !in s.abandoned
      && (forall t :: !CarriedBy(s.tasks, run, t))
      && (forall i :: i in s.log ==> i.run != run)
      && s.next !in s.tasks && s.next !in s.gate.arrivals
  {
  }

  /** A live task keeps its observation when only its phase moves on. */
  lemma PutLive(tasks: Tasks, pending: map<Instance, Observation>, timers: set<Instance>,
                outcomes: map<Instance, Outcome>, log: seq<Instance>, t: Ticket, task: Task)
    requires ObservationsSound(tasks, pending, timers, outcomes, log)
    requires t in tasks && tasks[t].Live() && task.Live() && task.Instance() == tasks[t].Instance()
    ensures ObservationsSound(tasks[t := task], pending, timers, outcomes, log)
  {
    assert forall i, x :: ObservedBy(tasks, i, x) ==> ObservedBy(tasks[t := task], i, x);
  }

  /** An attempt may only end once its promise has settled. */
  lemma PutSettled(tasks: Tasks, pending: map<Instance, Observation>, timers: set<Instance>,
                   outcomes: map<Instance, Outcome>, log: seq<Instance>, t: Ticket, task: Task)
    requires ObservationsSound(tasks, pending, timers, outcomes, log)
    requires t in tasks && !task.Live() && (tasks[t].Live() ==> tasks[t].Instance() !in pending)
    ensures ObservationsSound(tasks[t := task], pending, timers, outcomes, log)
  {
    assert forall i, x :: ObservedBy(tasks, i, x) && x != t ==> ObservedBy(tasks[t := task], i, x);
  }

  /** Forgetting tasks that are not live and, if they carry a run, are dropped knowingly. */
  lemma Forget(cfg: Config, tasks: Tasks, fired: map<Id, Schedule>, legacy: set<Id>, runs: map<Id, RunRow>,
               pending: map<Instance, Observation>, timers: set<Instance>,
               outcomes: map<Instance, Outcome>, log: seq<Instance>, gone: set<Ticket>)
    requires TasksSound(cfg, tasks, fired, legacy) && RowsAgree(runs, tasks) && LogBehind(log, tasks)
    requires ObservationsSound(tasks, pending, timers, outcomes, log)
    requires forall t :: t in gone && t in tasks ==> !tasks[t].Live()
    ensures TasksSound(cfg, tasks - gone, fired, legacy) && RowsAgree(runs, tasks - gone)
    ensures LogBehind(log, tasks - gone)
    ensures ObservationsSound(tasks - gone, pending, timers, outcomes, log)
  {
    assert forall i, x :: ObservedBy(tasks, i, x) ==> ObservedBy(tasks - gone, i, x);
  }

  /** Runs whose carriers are dropped are recorded as abandoned. */
  lemma Abandon(s: State, gone: set<Ticket>, lost: set<Id>)
    requires Inv(s)
    requires forall t :: t in gone && t in s.tasks && s.tasks[t].Carries() ==>
               && !s.tasks[t].Live() && (s.tasks[t].run in lost || s.tasks[t].run !in s.store.runs)
    requires forall r :: r in lost ==> exists t :: t in gone && CarriedBy(s.tasks, r, t)
    ensures OpenRowsCarried(s.store.runs, s.tasks - gone, s.legacy, s.abandoned + lost)
    ensures AbandonedSound(s.store.runs, s.tasks - gone, s.fired, s.legacy, s.abandoned + lost)
  {
    hide GateLinked, RowsSound, LogSound, LogBehind, TimersTracked, NoIdleSlot, GateInv, ObservationsSound;
    var after := s.tasks - gone;
    assert forall r, x :: CarriedBy(after, r, x) ==> CarriedBy(s.tasks, r, x);
    forall r | r in s.store.runs && Carried(s.tasks, r) && r !in lost ensures Carried(after, r) {
      var x :| CarriedBy(s.tasks, r, x);
      assert x !in gone;
      assert CarriedBy(after, r, x);
    }
    forall r | r in lost ensures !Carried(after, r) {
      var t :| t in gone && CarriedBy(s.tasks, r, t);
    }
  }

  lemma ForgetUntimed(retryTimers: map<Id, set<Ticket>>, tasks: Tasks, gone: set<Ticket>)
    requires TimersTracked(retryTimers, tasks)
    requires forall t :: t in gone && t in tasks ==> tasks[t].phase != Backoff
    ensures TimersTracked(retryTimers, tasks - gone)
  {
  }

  lemma CarrierFacts(s: State, t: Ticket)
    requires Inv(s) && t in s.tasks && s.tasks[t].Carries()
    ensures var task := s.tasks[t];
      && RowAgrees(s.store.runs, task)
      && task.run !in s.abandoned && task.run in s.fired && task.run !in s.legacy
      && s.fired[task.run] == task.rec && task.attempt <= Budget(task.rec, s.cfg)
      && (forall u :: u != t ==> !CarriedBy(s.tasks, task.run, u))
      && (forall i :: i in s.log && i.run == task.run ==>
            i.attempt < task.attempt + (if task.Live() then 1 else 0))
  {
    assert CarriedBy(s.tasks, s.tasks[t].run, t);
  }

  /** A carrier moves to another phase that neither starts nor ends an attempt. */
  lemma Step(s: State, t: Ticket, task: Task)
    requires Inv(s) && t in s.tasks && s.tasks[t].phase in {Gated, Backoff}
    requires task.phase in {Gated, Slotted} && task == s.tasks[t].(phase := task.phase)
    ensures var after := s.tasks[t := task];
      && TasksSound(s.cfg, after, s.fired, s.legacy) && RowsAgree(s.store.runs, after)
      && OpenRowsCarried(s.store.runs, after, s.legacy, s.abandoned)
      && AbandonedSound(s.store.runs, after, s.fired, s.legacy, s.abandoned)
      && ObservationsSound(after, s.pending, s.observeTimers, s.outcomes, s.log)
      && LogBehind(s.log, after)
      && (s.tasks[t].phase == Gated ==> TimersTracked(s.retryTimers, after))
  {
    hide GateLinked, RowsSound, TasksSound, RowsAgree, OpenRowsCarried, AbandonedSound,
         ObservationsSound, LogSound, LogBehind, TimersTracked, NoIdleSlot, GateInv;
    CarrierFacts(s, t);
    PutTask(s.cfg, s.tasks, s.fired, s.legacy, t, task);
    PutRow(s.store.runs, s.tasks, t, task);
    PutCarrier(s.store.runs, s.tasks, s.fired, s.legacy, s.abandoned, t, task);
    PutUnobserved(s.tasks, s.pending, s.observeTimers, s.outcomes, s.log, t, task);
    PutLog(s.log, s.tasks, t, task);
    if s.tasks[t].phase == Gated {
      PutUntimed(s.retryTimers, s.tasks, t, task);
    }
  }

  lemma FireKeeps(s: State, rec: Schedule, run: Id)
    requires Inv(s) && FreshRun(s, run)
    ensures Inv(Fire(s, rec, run))
  {
    hide GateLinked, RowsSound, TasksSound, RowsAgree, OpenRowsCarried, AbandonedSound,
         ObservationsSound, LogSound, LogBehind, TimersTracked, NoIdleSlot, GateInv, Fire, Acquire;
    FireIs(s, rec, run);
    if !s.shuttingDown {
      var t, phase := s.next, if s.gate.inFlight >= s.cfg.maxConcurrentRuns then Gated else Slotted;
      var task, fired := Task(rec, run, 0, phase), s.fired[run := rec];
      FireGives(s, rec, run);
      FiredGrows(s, rec, run);
      GateEnters(s.gate, s.cfg.maxConcurrentRuns, s.tasks, s.next, t, task);
      AcquireKeeps(s.gate, s.cfg.maxConcurrentRuns, t);
      PutTask(s.cfg, s.tasks, fired, s.legacy, t, task);
      PutRow(s.store.runs, s.tasks, t, task);
      PutCarrier(s.store.runs, s.tasks, fired, s.legacy, s.abandoned, t, task);
      PutUnobserved(s.tasks, s.pending, s.observeTimers, s.outcomes, s.log, t, task);
      PutLog(s.log, s.tasks, t, task);
      PutUntimed(s.retryTimers, s.tasks, t, task);
    }
  }

  lemma ResumeStepKeeps(s: State)
    requires Inv(s) && s.gate.woken != []
    ensures s.gate.woken[0] in s.tasks && Inv(ResumeStep(s))
  {
    hide GateLinked, RowsSound, TasksSound, RowsAgree, OpenRowsCarried, AbandonedSound,
         ObservationsSound, LogSound, LogBehind, TimersTracked, NoIdleSlot, GateInv;
    GateWakes(s.gate, s.tasks, s.next);
    ResumeKeeps(s.gate, s.cfg.maxConcurrentRuns, s.shuttingDown);
    var t := s.gate.woken[0];
    var task := s.tasks[t];
    if s.shuttingDown {
      var lost := if task.attempt > 0 then {task.run} else {};
      CarrierFacts(s, t);
      assert CarriedBy(s.tasks, task.run, t);
      Forget(s.cfg, s.tasks, s.fired, s.legacy, s.store.runs, s.pending, s.observeTimers, s.outcomes, s.log, {t});
      Abandon(s, {t}, lost);
      ForgetUntimed(s.retryTimers, s.tasks, {t});
    } else {
      Step(s, t, task.(phase := Slotted));
    }
  }

  /** The carrier of a run lets go of it, leaving a terminal row or none. */
  lemma EndRows(s: State, t: Ticket, row: Option<RunRow>)
    requires Inv(s) && t in s.tasks && s.tasks[t].Carries()
    requires row.None? ==> s.tasks[t].run !in s.store.runs
    requires row.Some? ==> Terminal(row.value.status) && row.value.sid in s.store.schedules
    ensures var run := s.tasks[t].run;
            var runs := if row.None? then s.store.runs else s.store.runs[run := row.value];
            var after := s.tasks[t := s.tasks[t].(phase := Releasing)];
      && RowsSound(s.store.(runs := runs), s.fired, s.legacy)
      && RowsAgree(runs, after)
      && OpenRowsCarried(runs, after, s.legacy, s.abandoned)
      && AbandonedSound(runs, after, s.fired, s.legacy, s.abandoned)
  {
    hide GateLinked, ObservationsSound, LogSound, LogBehind, TimersTracked, NoIdleSlot, GateInv;
    var run := s.tasks[t].run;
    assert CarriedBy(s.tasks, run, t);
    var after := s.tasks[t := s.tasks[t].(phase := Releasing)];
    assert forall r, x :: CarriedBy(s.tasks, r, x) && x != t ==> CarriedBy(after, r, x);
    assert forall r, x :: CarriedBy(after, r, x) ==> CarriedBy(s.tasks, r, x) && x != t;
    forall x | x in after && after[x].Carries() ensures after[x].run != run {
      assert CarriedBy(after, after[x].run, x);
    }
  }

  /** An attempt ends: its row turns terminal, or is gone already. */
  lemma EndsWith(s: State, t: Ticket, row: Option<RunRow>)
    requires Inv(s) && t in s.tasks && s.tasks[t].HoldsSlot() && s.tasks[t].Carries()
    requires s.tasks[t].Live() ==> s.tasks[t].Instance() !in s.pending
    requires row.None? ==> s.tasks[t].run !in s.store.runs
    requires row.Some? ==> Terminal(row.value.status) && row.value.sid in s.store.schedules
    ensures Inv(SetPhase(s, t, Releasing).(store :=
                  if row.None? then s.store else s.store.(runs := s.store.runs[s.tasks[t].run := row.value])))
  {
    hide GateLinked, RowsSound, TasksSound, RowsAgree, OpenRowsCarried, AbandonedSound,
         ObservationsSound, LogSound, LogBehind, TimersTracked, NoIdleSlot, GateInv;
    var task := s.tasks[t].(phase := Releasing);
    GateSame(s.gate, s.tasks, s.next, t, task);
    CarrierFacts(s, t);
    PutTask(s.cfg, s.tasks, s.fired, s.legacy, t, task);
    PutSettled(s.tasks, s.pending, s.observeTimers, s.outcomes, s.log, t, task);
    PutLog(s.log, s.tasks, t, task);
    PutUntimed(s.retryTimers, s.tasks, t, task);
    EndRows(s, t, row);
  }

  lemma EndAttemptKeeps(s: State, t: Ticket, status: Status, error: Option<string>)
    requires Inv(s) && t in s.tasks && Terminal(status) && s.tasks[t].HoldsSlot() && s.tasks[t].Carries()
    requires s.tasks[t].Live() ==> s.tasks[t].Instance() !in s.pending
    ensures Inv(EndAttempt(s, t, status, error))
  {
    hide GateLinked, RowsSound, TasksSound, RowsAgree, OpenRowsCarried, AbandonedSound,
         ObservationsSound, LogSound, LogBehind, TimersTracked, NoIdleSlot, GateInv;
    var task := s.tasks[t];
    CarrierFacts(s, t);
    if task.run in s.store.runs {
      RowOwned(s, task.run);
    }
    var row := if task.run in s.store.runs
               then Some(s.store.runs[task.run].(status := status, error := error)) else None;
    EndsWith(s, t, row);
    AutoDeleteKeeps(SetPhase(s, t, Releasing).(store := s.store.Finish(task.run, status, error)), task.rec);
  }

  lemma RowOwned(s: State, run: Id)
    requires Inv(s) && run in s.store.runs
    ensures s.store.runs[run].sid in s.store.schedules
  {
  }

  /** A carrier and its row move on together, to the row that agrees with it. */
  lemma MoveRow(s: State, t: Ticket, phase: Phase, row: Option<RunRow>)
    requires Inv(s) && t in s.tasks && s.tasks[t].Carries() && phase in {Dispatching, Observing}
    requires row.None? ==> s.tasks[t].run !in s.store.runs
    requires row.Some? ==> row.value.sid in s.store.schedules
    requires row.Some? ==>
      RowAgrees(s.store.runs[s.tasks[t].run := row.value], s.tasks[t].(phase := phase))
    ensures var run := s.tasks[t].run;
            var runs := if row.None? then s.store.runs else s.store.runs[run := row.value];
            var after := s.tasks[t := s.tasks[t].(phase := phase)];
      && RowsSound(s.store.(runs := runs), s.fired, s.legacy)
      && RowsAgree(runs, after)
      && OpenRowsCarried(runs, after, s.legacy, s.abandoned)
      && AbandonedSound(runs, after, s.fired, s.legacy, s.abandoned)
  {
    hide GateLinked, ObservationsSound, LogSound, LogBehind, TimersTracked, NoIdleSlot, GateInv;
    var run := s.tasks[t].run;
    assert CarriedBy(s.tasks, run, t);
    var after := s.tasks[t := s.tasks[t].(phase := phase)];
    assert forall r, x :: CarriedBy(s.tasks, r, x) <==> CarriedBy(after, r, x);
    forall x | x in after && after[x].Carries() && x != t ensures after[x].run != run {
      assert CarriedBy(after, after[x].run, x);
    }
  }

  /** Dispatching an attempt registers its observation first and is never a repetition. */
  lemma BeginAttemptKeeps(s: State, t: Ticket, row: Option<RunRow>)
    requires Inv(s) && t in s.tasks && s.tasks[t].phase == Slotted
    requires row.None? ==> s.tasks[t].run !in s.store.runs
    requires row.Some? ==> row.value.sid in s.store.schedules
    requires row.Some? ==>
      RowAgrees(s.store.runs[s.tasks[t].run := row.value], s.tasks[t].(phase := Dispatching))
    ensures Inv(BeginAttempt(s.(store :=
      if row.None? then s.store else s.store.(runs := s.store.runs[s.tasks[t].run := row.value])), t))
  {
    hide GateLinked, RowsSound, TasksSound, RowsAgree, OpenRowsCarried, AbandonedSound,
         ObservationsSound, LogSound, LogBehind, TimersTracked, NoIdleSlot, GateInv;
    var task := s.tasks[t].(phase := Dispatching);
    GateSame(s.gate, s.tasks, s.next, t, task);
    CarrierFacts(s, t);
    PutTask(s.cfg, s.tasks, s.fired, s.legacy, t, task);
    PutUntimed(s.retryTimers, s.tasks, t, task);
    MoveRow(s, t, Dispatching, row);
    LogGrows(s, t);
    Register(s, t);
  }

  lemma LogGrows(s: State, t: Ticket)
    requires Inv(s) && t in s.tasks && s.tasks[t].phase == Slotted
    ensures var log := s.log + [s.tasks[t].Instance()];
      && s.tasks[t].Instance() !in s.log
      && LogSound(s.cfg, log, s.fired, s.legacy)
      && LogBehind(log, s.tasks[t := s.tasks[t].(phase := Dispatching)])
  {
    hide GateLinked, RowsSound, RowsAgree, OpenRowsCarried, AbandonedSound, ObservationsSound,
         TimersTracked, NoIdleSlot, GateInv;
    CarrierFacts(s, t);
    var after := s.tasks[t := s.tasks[t].(phase := Dispatching)];
    forall x | x in after && after[x].Carries() && x != t ensures after[x].run != s.tasks[t].run {
      assert CarriedBy(s.tasks, after[x].run, x);
    }
  }

  lemma Register(s: State, t: Ticket)
    requires Inv(s) && t in s.tasks && s.tasks[t].phase == Slotted && s.tasks[t].Instance() !in s.log
    ensures var i := s.tasks[t].Instance();
      ObservationsSound(s.tasks[t := s.tasks[t].(phase := Dispatching)],
        s.pending[i := Observation(false, "")], s.observeTimers + {i}, s.outcomes, s.log + [i])
  {
    hide GateLinked, RowsSound, TasksSound, RowsAgree, OpenRowsCarried, AbandonedSound,
         LogSound, LogBehind, TimersTracked, NoIdleSlot, GateInv;
    var i := s.tasks[t].Instance();
    var after := s.tasks[t := s.tasks[t].(phase := Dispatching)];
    assert ObservedBy(after, i, t);
    assert forall j, x :: ObservedBy(s.tasks, j, x) ==> ObservedBy(after, j, x);
  }

  lemma BeginKeeps(s: State, t: Ticket, preflightOk: bool)
    requires Inv(s) && InPhase(s, t, Slotted)
    ensures Inv(BeginStep(s, t, preflightOk))
  {
    hide GateLinked, RowsSound, TasksSound, RowsAgree, OpenRowsCarried, AbandonedSound,
         ObservationsSound, LogSound, LogBehind, TimersTracked, NoIdleSlot, GateInv;
    var task := s.tasks[t];
    CarrierFacts(s, t);
    if task.attempt > 0 {
      if task.run in s.store.runs {
        RowOwned(s, task.run);
        var row := s.store.runs[task.run];
        assert s.store.(runs := s.store.runs[task.run := row]) == s.store;
        BeginAttemptKeeps(s, t, Some(row));
      } else {
        BeginAttemptKeeps(s, t, None);
      }
    } else if !s.store.CanStart(task.rec.id, task.run) {
      EndsWith(s, t, None);
    } else {
      StartKeeps(s, t, preflightOk);
    }
  }

  /** A first attempt: its row is started, and the preflight decides how it goes on. */
  lemma StartKeeps(s: State, t: Ticket, preflightOk: bool)
    requires Inv(s) && InPhase(s, t, Slotted) && s.tasks[t].attempt == 0
    requires s.store.CanStart(s.tasks[t].rec.id, s.tasks[t].run)
    ensures var u := RowStarted(s, s.tasks[t].rec.id, s.tasks[t].run);
      Inv(if preflightOk then BeginAttempt(u, t)
          else EndAttempt(u, t, Skipped, Some("provider endpoint unavailable")))
  {
    hide GateLinked, RowsSound, TasksSound, RowsAgree, OpenRowsCarried, AbandonedSound,
         ObservationsSound, LogSound, LogBehind, TimersTracked, NoIdleSlot, GateInv, AutoDelete;
    var task := s.tasks[t];
    CarrierFacts(s, t);
    var row := RunRow(task.rec.id, Instance(task.rec.id, task.run, 0), None, Queued, None, 0);
    if preflightOk {
      BeginAttemptKeeps(s, t, Some(row));
    } else {
      var done := row.(status := Skipped, error := Some("provider endpoint unavailable"));
      EndsWith(s, t, Some(done));
      assert s.store.runs[task.run := row][task.run := done] == s.store.runs[task.run := done];
      AutoDeleteKeeps(SetPhase(s, t, Releasing).(store := s.store.(runs := s.store.runs[task.run := done])),
                      task.rec);
    }
  }

  lemma AdmitKeeps(s: State, t: Ticket, dispatchId: string)
    requires Inv(s) && InPhase(s, t, Dispatching)
    ensures Inv(AdmitStep(s, t, dispatchId))
  {
    hide GateLinked, RowsSound, TasksSound, RowsAgree, OpenRowsCarried, AbandonedSound,
         ObservationsSound, LogSound, LogBehind, TimersTracked, NoIdleSlot, GateInv;
    var task := s.tasks[t].(phase := Observing);
    GateSame(s.gate, s.tasks, s.next, t, task);
    CarrierFacts(s, t);
    PutTask(s.cfg, s.tasks, s.fired, s.legacy, t, task);
    PutUntimed(s.retryTimers, s.tasks, t, task);
    PutLive(s.tasks, s.pending, s.observeTimers, s.outcomes, s.log, t, task);
    PutLog(s.log, s.tasks, t, task);
    if task.run in s.store.runs {
      RowOwned(s, task.run);
      MoveRow(s, t, Observing, Some(s.store.runs[task.run].(dispatchId := Some(dispatchId), status := Admitted)));
    } else {
      MoveRow(s, t, Observing, None);
    }
  }

  lemma RejectKeeps(s: State, t: Ticket, reason: string)
    requires Inv(s) && InPhase(s, t, Dispatching)
    ensures Inv(RejectStep(s, t, reason))
  {
    hide GateLinked, RowsSound, TasksSound, RowsAgree, OpenRowsCarried, AbandonedSound,
         ObservationsSound, LogSound, LogBehind, TimersTracked, NoIdleSlot, GateInv;
    var i := s.tasks[t].Instance();
    SettleKeeps(s, i, TimeoutOutcome("cancelled"));
    EndAttemptKeeps(Settle(s, i, TimeoutOutcome("cancelled")), t, Failed, Some(reason));
  }

  lemma TurnErrorKeeps(s: State, i: Instance, message: string)
    requires Inv(s) && i in s.pending
    ensures Inv(TurnErrorStep(s, i, message))
  {
    hide GateLinked, RowsSound, TasksSound, RowsAgree, OpenRowsCarried, AbandonedSound,
         LogSound, LogBehind, TimersTracked, NoIdleSlot, GateInv;
    assert s.pending[i := Observation(true, message)].Keys == s.pending.Keys;
  }

  /** An armed observation timer means the promise is still pending, so the
      timeout settles it like everything else does. */
  lemma TimeoutSettles(s: State, i: Instance)
    requires Inv(s) && i in s.observeTimers
    ensures i in s.pending && i !in s.outcomes
    ensures TimeoutStep(s, i) == Settle(s, i, TimeoutOutcome("observe timeout"))
  {
  }

  /** After arming a retry the new timer carries the run. */
  lemma CarrierHandsOver(s: State, t: Ticket, again: Task)
    requires Inv(s) && t in s.tasks && s.tasks[t].Carries() && s.next !in s.tasks
    requires again.run == s.tasks[t].run && again.Carries()
    ensures var run := again.run; var after := s.tasks[t := s.tasks[t].(phase := Releasing)][s.next := again];
      && CarriedBy(s.tasks, run, t) && CarriedBy(after, run, s.next)
      && (forall r, x :: CarriedBy(s.tasks, r, x) && x != t ==> CarriedBy(after, r, x))
      && (forall r, x :: CarriedBy(after, r, x) && x != s.next ==> CarriedBy(s.tasks, r, x) && r != run)
  {
    hide GateLinked, RowsSound, RowsAgree, OpenRowsCarried, AbandonedSound,
         ObservationsSound, LogSound, LogBehind, TimersTracked, NoIdleSlot, GateInv;
  }

  /** The rows and what carries them, once the retry is armed. */
  ghost predicate RowsRetried(s: State, t: Ticket)
    requires t in s.tasks
  {
    var task := s.tasks[t];
    var again := task.(attempt := task.attempt + 1, phase := Backoff);
    var after := s.tasks[t := task.(phase := Releasing)][s.next := again];
    var store := s.store.Retry(task.run, again.Instance());
    && RowsSound(store, s.fired, s.legacy)
    && RowsAgree(store.runs, after)
    && OpenRowsCarried(store.runs, after, s.legacy, s.abandoned)
    && AbandonedSound(store.runs, after, s.fired, s.legacy, s.abandoned)
  }

  lemma RetryRow(s: State, t: Ticket)
    requires Inv(s) && t in s.tasks && s.tasks[t].phase == Observing && s.next !in s.tasks
    ensures RowsRetried(s, t)
  {
    hide SlugsUnique, GateLinked, TasksSound, ObservationsSound,
         LogSound, LogBehind, TimersTracked, NoIdleSlot, GateInv;
    var task := s.tasks[t];
    var again := task.(attempt := task.attempt + 1, phase := Backoff);
    var after := s.tasks[t := task.(phase := Releasing)][s.next := again];
    CarrierHandsOver(s, t, again);
    assert forall x :: x in after && after[x].Carries() && x != s.next ==> CarriedBy(after, after[x].run, x);
  }

  /** Arming a retry hands the run from the ending attempt to the new timer. */
  lemma ArmRetryKeeps(s: State, t: Ticket)
    requires Inv(s) && t in s.tasks && s.tasks[t].phase == Observing
    requires s.tasks[t].Instance() in s.outcomes && s.tasks[t].attempt < Budget(s.tasks[t].rec, s.cfg)
    ensures Inv(ArmRetry(s, t))
  {
    hide GateLinked, RowsSound, TasksSound, RowsAgree, OpenRowsCarried, AbandonedSound,
         ObservationsSound, LogSound, LogBehind, TimersTracked, NoIdleSlot, GateInv;
    var task := s.tasks[t];
    var ending := task.(phase := Releasing);
    var again := task.(attempt := task.attempt + 1, phase := Backoff);
    var mid := s.tasks[t := ending];
    CarrierFacts(s, t);
    FreshTicket(s);
    GateSame(s.gate, s.tasks, s.next, t, ending);
    GateAdds(s.gate, mid, s.next, again);
    PutTask(s.cfg, s.tasks, s.fired, s.legacy, t, ending);
    assert forall u :: CarriedBy(mid, task.run, u) ==> CarriedBy(s.tasks, task.run, u) && u != t;
    PutTask(s.cfg, mid, s.fired, s.legacy, s.next, again);
    PutSettled(s.tasks, s.pending, s.observeTimers, s.outcomes, s.log, t, ending);
    PutUnobserved(mid, s.pending, s.observeTimers, s.outcomes, s.log, s.next, again);
    PutLog(s.log, s.tasks, t, ending);
    PutLog(s.log, mid, s.next, again);
    PutUntimed(s.retryTimers, s.tasks, t, ending);
    Track(s.retryTimers, mid, s.next, again);
    RetryRow(s, t);
  }

  lemma FreshTicket(s: State)
    requires Inv(s)
    ensures s.next !in s.tasks && s.next !in s.gate.arrivals
    ensures forall i :: i in s.outcomes ==> i !in s.pending
  {
  }

  lemma GateAdds(gate: Gate, tasks: Tasks, next: Ticket, task: Task)
    requires GateLinked(gate, tasks, next) && task.phase == Backoff
    ensures GateLinked(gate, tasks[next := task], next + 1)
  {
  }

  lemma Track(retryTimers: map<Id, set<Ticket>>, tasks: Tasks, t: Ticket, task: Task)
    requires TimersTracked(retryTimers, tasks) && t !in tasks && task.phase == Backoff
    ensures var sid := task.rec.id;
      TimersTracked(retryTimers[sid := (if sid in retryTimers then retryTimers[sid] else {}) + {t}],
                    tasks[t := task])
  {
  }

  lemma ConcludeKeeps(s: State, t: Ticket)
    requires Inv(s) && InPhase(s, t, Observing) && s.tasks[t].Instance() in s.outcomes
    ensures Inv(ConcludeStep(s, t, s.outcomes[s.tasks[t].Instance()]))
  {
    hide GateLinked, RowsSound, TasksSound, RowsAgree, OpenRowsCarried, AbandonedSound,
         ObservationsSound, LogSound, LogBehind, TimersTracked, NoIdleSlot, GateInv;
    FreshTicket(s);
    match s.outcomes[s.tasks[t].Instance()]
    case OkOutcome => EndAttemptKeeps(s, t, Succeeded, None);
    case TimeoutOutcome(m) => EndAttemptKeeps(s, t, TimedOut, Some(m));
    case ErrorOutcome(m) =>
      if Retries(s.cfg, s.tasks[t], m) {
        ArmRetryKeeps(s, t);
      } else {
        EndAttemptKeeps(s, t, if IsTransient(s.cfg.classify(m)) then Failed else Skipped, Some(m));
      }
  }

  lemma ReleaseSlotKeeps(s: State, t: Ticket)
    requires Inv(s) && InPhase(s, t, Releasing)
    ensures Inv(ReleaseStep(s, t))
  {
    hide GateLinked, RowsSound, TasksSound, RowsAgree, OpenRowsCarried, AbandonedSound,
         ObservationsSound, LogSound, LogBehind, TimersTracked, NoIdleSlot, GateInv;
    GateReleases(s.gate, s.tasks, s.next, t);
    HolderHolds(s.gate, s.tasks, s.next, t);
    ReleaseKeeps(s.gate, s.cfg.maxConcurrentRuns, t);
    Forget(s.cfg, s.tasks, s.fired, s.legacy, s.store.runs, s.pending, s.observeTimers, s.outcomes, s.log, {t});
    Abandon(s, {t}, {});
    ForgetUntimed(s.retryTimers, s.tasks, {t});
    assert s.abandoned + {} == s.abandoned;
  }

  lemma HolderHolds(gate: Gate, tasks: Tasks, next: Ticket, t: Ticket)
    requires GateLinked(gate, tasks, next) && t in tasks
    ensures tasks[t].HoldsSlot() ==> t in gate.holders
    ensures tasks[t].phase == Backoff ==> t !in gate.arrivals
  {
  }

  /** Dropping exactly the tracked timers of one schedule. */
  lemma Untrack(retryTimers: map<Id, set<Ticket>>, tasks: Tasks, sid: Id)
    requires TimersTracked(retryTimers, tasks)
    ensures TimersTracked(retryTimers - {sid}, tasks - (if sid in retryTimers then retryTimers[sid] else {}))
  {
    var gone := if sid in retryTimers then retryTimers[sid] else {};
    var after := tasks - gone;
    forall t | t in after && after[t].phase == Backoff
      ensures after[t].rec.id in retryTimers - {sid} && t in (retryTimers - {sid})[after[t].rec.id]
    {
      assert t in tasks;
    }
    forall other, t | other in retryTimers - {sid} && t in (retryTimers - {sid})[other]
      ensures t in after && after[t].phase == Backoff && after[t].rec.id == other
    {
      assert other in retryTimers && t in retryTimers[other];
      assert tasks[t].rec.id == other;
    }
  }

  lemma UntrackOne(retryTimers: map<Id, set<Ticket>>, tasks: Tasks, t: Ticket, task: Task)
    requires TimersTracked(retryTimers, tasks) && t in tasks && tasks[t].phase == Backoff && task.phase != Backoff
    ensures var sid := tasks[t].rec.id;
      && sid in retryTimers
      && TimersTracked(retryTimers[sid := retryTimers[sid] - {t}], tasks[t := task])
      && TimersTracked(retryTimers[sid := retryTimers[sid] - {t}], tasks - {t})
  {
  }

  /** A retry timer carries its run, and its row belongs to the timer's schedule. */
  lemma TimerFacts(s: State, t: Ticket)
    requires Inv(s) && t in s.tasks && s.tasks[t].phase == Backoff
    ensures s.tasks[t].Carries() && CarriedBy(s.tasks, s.tasks[t].run, t)
    ensures s.tasks[t].rec.id in s.retryTimers && t in s.retryTimers[s.tasks[t].rec.id]
    ensures s.tasks[t].rec.id !in s.store.schedules ==> s.tasks[t].run !in s.store.runs
  {
  }

  lemma TrackedIsBackoff(s: State, sid: Id, t: Ticket)
    requires Inv(s) && t in TimersOf(s, sid)
    ensures InPhase(s, t, Backoff) && s.tasks[t].rec.id == sid
  {
  }

  /** Forgetting retry timers, with their runs recorded as abandoned or their rows gone. */
  lemma ForgetTimers(s: State, gone: set<Ticket>, lost: set<Id>)
    requires Inv(s)
    requires forall t :: t in gone ==>
               InPhase(s, t, Backoff) && (s.tasks[t].run in lost || s.tasks[t].run !in s.store.runs)
    requires forall r :: r in lost ==> exists t :: t in gone && t in s.tasks && s.tasks[t].run == r
    ensures var after := s.tasks - gone; var abandoned := s.abandoned + lost;
      && GateLinked(s.gate, after, s.next)
      && TasksSound(s.cfg, after, s.fired, s.legacy)
      && RowsAgree(s.store.runs, after)
      && OpenRowsCarried(s.store.runs, after, s.legacy, abandoned)
      && AbandonedSound(s.store.runs, after, s.fired, s.legacy, abandoned)
      && ObservationsSound(after, s.pending, s.observeTimers, s.outcomes, s.log)
      && LogBehind(s.log, after)
  {
    hide GateLinked, RowsSound, TasksSound, RowsAgree, OpenRowsCarried, AbandonedSound,
         ObservationsSound, LogSound, LogBehind, TimersTracked, NoIdleSlot, GateInv;
    GateForgets(s.gate, s.tasks, s.next, gone);
    Forget(s.cfg, s.tasks, s.fired, s.legacy, s.store.runs, s.pending, s.observeTimers, s.outcomes, s.log, gone);
    forall r | r in lost ensures exists t :: t in gone && CarriedBy(s.tasks, r, t) {
      var t :| t in gone && t in s.tasks && s.tasks[t].run == r;
      assert CarriedBy(s.tasks, r, t);
    }
    Abandon(s, gone, lost);
  }

  lemma RetryKeeps(s: State, t: Ticket)
    requires Inv(s) && InPhase(s, t, Backoff)
    ensures Inv(RetryStep(s, t))
  {
    hide GateLinked, RowsSound, TasksSound, RowsAgree, OpenRowsCarried, AbandonedSound,
         ObservationsSound, LogSound, LogBehind, TimersTracked, NoIdleSlot, GateInv;
    var task := s.tasks[t];
    var sid := task.rec.id;
    TimerFacts(s, t);
    if s.shuttingDown {
      ForgetTimers(s, {t}, {task.run});
      UntrackOne(s.retryTimers, s.tasks, t, task.(phase := Gated));
    } else if sid !in s.store.schedules {
      CancelGoneKeeps(s, sid);
      assert s.retryTimers[sid := s.retryTimers[sid] - {t}] - {sid} == s.retryTimers - {sid};
      assert s.tasks - {t} - (s.retryTimers[sid] - {t}) == s.tasks - s.retryTimers[sid];
    } else {
      var entered := task.(phase := if s.gate.inFlight >= s.cfg.maxConcurrentRuns then Gated else Slotted);
      HolderHolds(s.gate, s.tasks, s.next, t);
      GateEnters(s.gate, s.cfg.maxConcurrentRuns, s.tasks, s.next, t, entered);
      AcquireKeeps(s.gate, s.cfg.maxConcurrentRuns, t);
      Step(s, t, entered);
      UntrackOne(s.retryTimers, s.tasks, t, entered);
      KnownTicket(s, t);
    }
  }

  lemma KnownTicket(s: State, t: Ticket)
    requires Inv(s) && t in s.tasks
    ensures t < s.next
  {
  }

  /** Once a schedule is gone its retries can be dropped: their rows are gone too. */
  lemma CancelGoneKeeps(s: State, sid: Id)
    requires Inv(s) && sid !in s.store.schedules
    ensures Inv(CancelRetries(s, sid))
  {
    hide GateLinked, RowsSound, TasksSound, RowsAgree, OpenRowsCarried, AbandonedSound,
         ObservationsSound, LogSound, LogBehind, TimersTracked, NoIdleSlot, GateInv;
    var gone := TimersOf(s, sid);
    forall t | t in gone ensures InPhase(s, t, Backoff) && s.tasks[t].run !in s.store.runs {
      TrackedIsBackoff(s, sid, t);
      TimerFacts(s, t);
    }
    ForgetTimers(s, gone, {});
    Untrack(s.retryTimers, s.tasks, sid);
    assert s.abandoned + {} == s.abandoned;
  }

  lemma DeleteKeeps(s: State, id: Id)
    requires Inv(s)
    ensures Inv(DeleteStep(s, id))
  {
    hide GateLinked, RowsSound, TasksSound, RowsAgree, OpenRowsCarried, AbandonedSound,
         ObservationsSound, LogSound, LogBehind, TimersTracked, NoIdleSlot, GateInv;
    var u := s.(cron := s.cron - {id}, store := s.store.Without({id}));
    WithoutKeeps(s, {id});
    CancelGoneKeeps(u, id);
  }

  lemma SyncKeeps(s: State, rec: Schedule, validPattern: bool)
    requires Inv(s)
    ensures Inv(Sync(s, rec, validPattern))
  {
    hide GateLinked, RowsSound, TasksSound, RowsAgree, OpenRowsCarried, AbandonedSound,
         ObservationsSound, LogSound, LogBehind, TimersTracked, NoIdleSlot, GateInv;
    if !rec.enabled || s.shuttingDown {
      var gone := TimersOf(s, rec.id);
      forall t | t in gone ensures InPhase(s, t, Backoff) {
        TrackedIsBackoff(s, rec.id, t);
      }
      ForgetTimers(s, gone, RunsOf(s, gone));
      Untrack(s.retryTimers, s.tasks, rec.id);
    }
  }

  lemma SaveKeeps(s: State, rec: Schedule, validPattern: bool)
    requires Inv(s) && CanSave(s, rec)
    ensures Inv(Saved(s, rec))
  {
    hide GateLinked, TasksSound, RowsAgree, OpenRowsCarried, AbandonedSound,
         ObservationsSound, LogSound, LogBehind, TimersTracked, NoIdleSlot, GateInv;
    assert forall id :: id in s.store.schedules && s.store.schedules[id].slug == rec.slug
                        ==> id in s.store.WithSlug(rec.slug);
  }

  lemma DrainKeeps(s: State)
    requires Inv(s)
    ensures Inv(s.(pending := map[], observeTimers := s.observeTimers - s.pending.Keys,
                   outcomes := s.outcomes + Drained(s.pending)))
  {
    hide GateLinked, RowsSound, TasksSound, RowsAgree, OpenRowsCarried, AbandonedSound,
         LogSound, LogBehind, TimersTracked, NoIdleSlot, GateInv;
  }

  lemma StopKeeps(s: State)
    requires Inv(s)
    ensures Inv(StopStep(s))
  {
    hide GateLinked, RowsSound, TasksSound, RowsAgree, OpenRowsCarried, AbandonedSound,
         ObservationsSound, LogSound, LogBehind, TimersTracked, NoIdleSlot, GateInv;
    var u := s.(pending := map[], observeTimers := s.observeTimers - s.pending.Keys,
                outcomes := s.outcomes + Drained(s.pending));
    DrainKeeps(s);
    var gone := AllTimers(s);
    forall t | t in gone ensures InPhase(s, t, Backoff) {
      var sid :| sid in s.retryTimers && t in s.retryTimers[sid];
      TrackedIsBackoff(s, sid, t);
    }
    forall t | t in s.tasks && s.tasks[t].phase == Backoff ensures t in gone {
      TimerFacts(s, t);
    }
    ForgetTimers(u, gone, RunsOf(s, gone));
    UntrackAll(s.tasks - gone);
  }

  lemma UntrackAll(tasks: Tasks)
    requires forall t :: t in tasks ==> tasks[t].phase != Backoff
    ensures TimersTracked(map[], tasks)
  {
  }

  // ---- Every event, every run ----

  lemma NextKeeps(s: State, e: Event)
    requires Inv(s) && Enabled(s, e)
    ensures SlugsUnique(s.store.schedules) && (e.ResumeWaiter? ==> s.gate.woken[0] in s.tasks)
    ensures Inv(Next(s, e))
  {
    hide GateLinked, RowsSound, TasksSound, RowsAgree, OpenRowsCarried, AbandonedSound,
         ObservationsSound, LogSound, LogBehind, TimersTracked, NoIdleSlot, GateInv;
    StoreUnique(s);
    match e
    case FireNow(slug, run) => FireKeeps(s, s.store.schedules[TheId(s.store, slug)], run);
    case CronTick(sid, run) => FireKeeps(s, s.cron[sid], run);
    case ResumeWaiter => ResumeStepKeeps(s);
    case Begin(t, ok) => BeginKeeps(s, t, ok);
    case DispatchResolves(t, d) => AdmitKeeps(s, t, d);
    case DispatchRejects(t, reason) => RejectKeeps(s, t, reason);
    case TurnError(i, m) => if i in s.pending { TurnErrorKeeps(s, i, m); }
    case AgentEnd(i) => if i in s.pending { SettleKeeps(s, i, s.Verdict(i)); }
    case ObserveTimeout(i) => TimeoutSettles(s, i); SettleKeeps(s, i, TimeoutOutcome("observe timeout"));
    case Conclude(t) => ConcludeKeeps(s, t);
    case ReleaseSlot(t) => ReleaseSlotKeeps(s, t);
    case RetryDue(t) => RetryKeeps(s, t);
    case Delete(slug) => DeleteKeeps(s, TheId(s.store, slug));
    case Save(rec, valid) =>
      SaveKeeps(s, rec, valid);
      SyncKeeps(Saved(s, rec), rec, valid);
    case Stop => StopKeeps(s);
  }

  lemma StoreUnique(s: State)
    requires Inv(s)
    ensures SlugsUnique(s.store.schedules)
  {
  }
}
