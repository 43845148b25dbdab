/**
 Each guarantee that is false fails in a short run of events from a fresh boot.
 The runs hold for any schedule and any run ids, so they are shapes, not accidents, and
 they are orderly: the event loop can take them.
 */
module ScheduleExamples {
  import opened Basics
  import opened ScheduleTypes
  import opened ScheduleGate
  import opened ScheduleState
  import opened ScheduleInvariant
  import opened ScheduleRuns
  import opened ScheduleConsequences
  import opened ScheduleWaiting
  import opened ScheduleStop
  import opened ScheduleDeletion

  /** A manager over a store that holds one schedule and no runs. */
  function Boot(cfg: Config, rec: Schedule): State {
    State(cfg, Store(map[rec.id := rec], map[]), EMPTY_GATE, map[], map[], {}, map[], map[], false,
          map[], 0, map[], {}, {rec.id}, {}, [])
  }

  lemma BootIsBooted(cfg: Config, rec: Schedule)
    ensures Booted(Boot(cfg, rec)) && Inv(Boot(cfg, rec))
  {
    BootedInv(Boot(cfg, rec));
  }

  // ---- What the events of the examples change ----

  lemma DoFire(s: State, rec: Schedule, run: Id)
    requires Inv(s) && !s.shuttingDown && FreshRun(s, run) && s.store.WithSlug(rec.slug) == {rec.id}
    requires rec.id in s.store.schedules && s.store.schedules[rec.id] == rec
    ensures Enabled(s, FireNow(rec.slug, run))
    ensures var full := s.gate.inFlight >= s.cfg.maxConcurrentRuns;
      Then(s, FireNow(rec.slug, run)) ==
        s.(tasks := s.tasks[s.next := Task(rec, run, 0, if full then Gated else Slotted)], next := s.next + 1,
           fired := s.fired[run := rec], gate := Acquire(s.gate, s.cfg.maxConcurrentRuns, s.next))
  {
    hide Inv, Fire, Acquire;
    StoreUnique(s);
    assert TheId(s.store, rec.slug) in {rec.id};
    FireGives(s, rec, run);
  }

  /** A first attempt starts its row and dispatches. */
  lemma DoBegin(s: State, t: Ticket)
    requires Inv(s) && InPhase(s, t, Slotted) && s.tasks[t].attempt == 0
    requires s.store.CanStart(s.tasks[t].rec.id, s.tasks[t].run)
    ensures Enabled(s, Begin(t, true))
    ensures var i := s.tasks[t].Instance();
      Then(s, Begin(t, true)) ==
        s.(tasks := s.tasks[t := s.tasks[t].(phase := Dispatching)],
           store := s.store.Started(s.tasks[t].rec.id, s.tasks[t].run),
           pending := s.pending[i := Observation(false, "")], observeTimers := s.observeTimers + {i},
           log := s.log + [i])
  {
    hide Inv;
  }

  lemma DoAdmit(s: State, t: Ticket)
    requires Inv(s) && InPhase(s, t, Dispatching)
    ensures Enabled(s, DispatchResolves(t, "d"))
    ensures Then(s, DispatchResolves(t, "d")) ==
      s.(tasks := s.tasks[t := s.tasks[t].(phase := Observing)], store := s.store.Admit(s.tasks[t].run, "d"))
  {
    hide Inv;
  }

  // ---- An attempt that is being observed ----

  function UntilObserved(rec: Schedule, run: Id): seq<Event> {
    [FireNow(rec.slug, run)] + [Begin(0, true)] + [DispatchResolves(0, "d")]
  }

  /** The one attempt there is, admitted and awaiting its outcome. */
  ghost predicate Observed(u: State, cfg: Config, rec: Schedule, run: Id) {
    var i := Instance(rec.id, run, 0);
    && Inv(u) && u.cfg == cfg && u.tasks == map[0 := Task(rec, run, 0, Observing)] && u.next == 1
    && u.store == Store(map[rec.id := rec], map[run := RunRow(rec.id, i, Some("d"), Admitted, None, 0)])
    && u.gate == Gate(1, [], [], {0}, [], []) && !u.shuttingDown && u.retryTimers == map[]
    && u.pending == map[i := Observation(false, "")] && u.observeTimers == {i} && u.outcomes == map[]
    && u.fired == map[run := rec] && u.legacy == {} && u.known == {rec.id} && u.log == [i]
  }

  lemma ReachesObserved(cfg: Config, rec: Schedule, run: Id) returns (u: State)
    requires cfg.maxConcurrentRuns >= 1
    ensures Reaches(Boot(cfg, rec), UntilObserved(rec, run), u) && Observed(u, cfg, rec, run)
  {
    var s := Boot(cfg, rec);
    BootIsBooted(cfg, rec);
    hide Inv, Then, CanRun, Enabled, Reaches;
    ReachesNone(s);
    assert s.store.WithSlug(rec.slug) == {rec.id};
    DoFire(s, rec, run);
    ReachesMore(s, [], s, FireNow(rec.slug, run));
    var a := Then(s, FireNow(rec.slug, run));
    DoBegin(a, 0);
    ReachesMore(s, [] + [FireNow(rec.slug, run)], a, Begin(0, true));
    var b := Then(a, Begin(0, true));
    DoAdmit(b, 0);
    ReachesMore(s, [] + [FireNow(rec.slug, run)] + [Begin(0, true)], b, DispatchResolves(0, "d"));
    u := Then(b, DispatchResolves(0, "d"));
    assert [] + [FireNow(rec.slug, run)] == [FireNow(rec.slug, run)];
  }

  lemma DoTurnError(s: State, i: Instance, m: string)
    requires Inv(s) && i in s.pending && !s.shuttingDown
    ensures Enabled(s, TurnError(i, m))
    ensures Then(s, TurnError(i, m)) == s.(pending := s.pending[i := Observation(true, m)])
  {
    hide Inv;
  }

  lemma DoConclude(s: State, t: Ticket)
    requires Inv(s) && InPhase(s, t, Observing) && s.tasks[t].Instance() in s.outcomes
    ensures Enabled(s, Conclude(t))
    ensures Then(s, Conclude(t)) == ConcludeStep(s, t, s.outcomes[s.tasks[t].Instance()])
  {
    hide Inv, ConcludeStep;
    StoreUnique(s);
  }

  lemma DoRelease(s: State, t: Ticket)
    requires Inv(s) && InPhase(s, t, Releasing)
    ensures Enabled(s, ReleaseSlot(t)) && Then(s, ReleaseSlot(t)) == ReleaseStep(s, t)
  {
    hide Inv, ReleaseStep;
    StoreUnique(s);
  }

  lemma DoRetry(s: State, t: Ticket)
    requires Inv(s) && InPhase(s, t, Backoff)
    ensures Enabled(s, RetryDue(t)) && Then(s, RetryDue(t)) == RetryStep(s, t)
  {
    hide Inv, RetryStep;
    StoreUnique(s);
  }

  // ---- An attempt that failed, and whose retry is armed ----

  function UntilArmed(rec: Schedule, run: Id, m: string): seq<Event> {
    var i := Instance(rec.id, run, 0);
    UntilObserved(rec, run) + [TurnError(i, m)] + [AgentEnd(i)] + [Conclude(0)]
  }

  /** The first attempt still holds its slot; its retry timer is armed. */
  ghost predicate ArmedState(u: State, cfg: Config, rec: Schedule, run: Id) {
    && Inv(u) && u.cfg == cfg && u.next == 2 && u.gate == Gate(1, [], [], {0}, [], []) && !u.shuttingDown
    && u.tasks == map[0 := Task(rec, run, 0, Releasing), 1 := Task(rec, run, 1, Backoff)]
    && u.store == Store(map[rec.id := rec], map[run := RunRow(rec.id, Instance(rec.id, run, 1), None, Queued, None, 1)])
    && u.retryTimers == map[rec.id := {1}] && u.fired == map[run := rec] && u.legacy == {} && u.known == {rec.id}
  }

  lemma ReachesArmed(cfg: Config, rec: Schedule, run: Id, m: string) returns (u: State)
    requires cfg.maxConcurrentRuns >= 1 && Retries(cfg, Task(rec, run, 0, Observing), m)
    ensures Reaches(Boot(cfg, rec), UntilArmed(rec, run, m), u) && ArmedState(u, cfg, rec, run)
  {
    hide Inv, Then, CanRun, Enabled, Reaches, Retries;
    var s, es, i := Boot(cfg, rec), UntilObserved(rec, run), Instance(rec.id, run, 0);
    var a := ReachesObserved(cfg, rec, run);
    DoTurnError(a, i, m);
    ReachesMore(s, es, a, TurnError(i, m));
    var b := Then(a, TurnError(i, m));
    DoAgentEnd(b, i);
    ReachesMore(s, es + [TurnError(i, m)], b, AgentEnd(i));
    var c := Then(b, AgentEnd(i));
    assert c.outcomes[i] == ErrorOutcome(m) && c.tasks[0] == Task(rec, run, 0, Observing);
    DoConclude(c, 0);
    ArmGives(c, 0, m);
    ReachesMore(s, es + [TurnError(i, m)] + [AgentEnd(i)], c, Conclude(0));
    u := Then(c, Conclude(0));
    assert u.tasks == map[0 := Task(rec, run, 0, Releasing), 1 := Task(rec, run, 1, Backoff)];
    assert u.store.runs == map[run := RunRow(rec.id, Instance(rec.id, run, 1), None, Queued, None, 1)];
    assert TimersOf(c, rec.id) + {c.next} == {1};
  }

  lemma ArmGives(s: State, t: Ticket, m: string)
    requires t in s.tasks && Retries(s.cfg, s.tasks[t], m)
    ensures var task := s.tasks[t];
      ConcludeStep(s, t, ErrorOutcome(m)) ==
        s.(store := s.store.Retry(task.run, Again(task).Instance()),
           tasks := s.tasks[t := task.(phase := Releasing)][s.next := Again(task)],
           retryTimers := s.retryTimers[task.rec.id := TimersOf(s, task.rec.id) + {s.next}], next := s.next + 1)
  {
    hide Retries;
  }

  /** Such policies exist: one slot, one retry, and every error a network error. */
  lemma SomePolicyRetries(rec: Schedule, run: Id, m: string) returns (cfg: Config)
    requires rec.maxAttempts.None? || rec.maxAttempts.value > 0
    ensures cfg.maxConcurrentRuns == 1 && Retries(cfg, Task(rec, run, 0, Observing), m)
  {
    cfg := Config(1, 1, {"network"}, (error: string) => "network");
  }

  /** The same once the attempt has given its slot back: only the timer is left. */
  function UntilResting(rec: Schedule, run: Id, m: string): seq<Event> {
    UntilArmed(rec, run, m) + [ReleaseSlot(0)]
  }

  ghost predicate RestingState(u: State, cfg: Config, rec: Schedule, run: Id) {
    && Inv(u) && u.cfg == cfg && u.next == 2 && u.gate == EMPTY_GATE && !u.shuttingDown
    && u.tasks == map[1 := Task(rec, run, 1, Backoff)]
    && u.store == Store(map[rec.id := rec], map[run := RunRow(rec.id, Instance(rec.id, run, 1), None, Queued, None, 1)])
    && u.retryTimers == map[rec.id := {1}] && u.fired == map[run := rec] && u.legacy == {} && u.known == {rec.id}
  }

  lemma ReachesResting(cfg: Config, rec: Schedule, run: Id, m: string) returns (u: State)
    requires cfg.maxConcurrentRuns >= 1 && Retries(cfg, Task(rec, run, 0, Observing), m)
    ensures Reaches(Boot(cfg, rec), UntilResting(rec, run, m), u) && RestingState(u, cfg, rec, run)
  {
    hide Inv, Then, CanRun, Enabled, Reaches, Retries;
    var a := ReachesArmed(cfg, rec, run, m);
    DoRelease(a, 0);
    ReachesMore(Boot(cfg, rec), UntilArmed(rec, run, m), a, ReleaseSlot(0));
    u := Then(a, ReleaseSlot(0));
    assert a.gate.holders - {0} == {};
    assert a.tasks - {0} == map[1 := Task(rec, run, 1, Backoff)];
  }

  /** A paused schedule's retry is dropped: its row stays queued and nothing will ever move it. */
  lemma PauseLeavesRunQueued(cfg: Config, rec: Schedule, run: Id, m: string, later: seq<Event>) returns (u: State)
    requires cfg.maxConcurrentRuns >= 1 && Retries(cfg, Task(rec, run, 0, Observing), m)
    ensures var es := UntilResting(rec, run, m) + [Save(rec.(enabled := false), true)];
      && Booted(Boot(cfg, rec)) && Reaches(Boot(cfg, rec), es, u)
      && run in u.store.runs && u.store.runs[run].status == Queued && !Carried(u.tasks, run)
      && (CanRun(u, later) && run in Run(u, later).store.runs ==> Run(u, later).store.runs[run].status == Queued)
  {
    hide Inv, Then, CanRun, Enabled, Reaches, Retries;
    var paused := rec.(enabled := false);
    BootIsBooted(cfg, rec);
    var a := ReachesResting(cfg, rec, run, m);
    assert a.store.WithSlug(paused.slug) == {rec.id};
    assert CanSave(a, paused);
    ThenSave(a, paused);
    SaveEnabled(a, paused);
    ReachesMore(Boot(cfg, rec), UntilResting(rec, run, m), a, Save(paused, true));
    u := Then(a, Save(paused, true));
    PauseDrops(a, 1, paused);
    AbandonedIsQueued(u, run);
    if CanRun(u, later) {
      AbandonedIsStuck(u, later, run);
    }
  }

  lemma SaveEnabled(s: State, rec: Schedule)
    requires Inv(s) && CanSave(s, rec)
    ensures Enabled(s, Save(rec, true))
  {
    hide Inv;
  }

  // ---- A retry that comes due while another run holds the only slot ----

  /** The other run takes the slot and dispatches. */
  function UntilBusy(rec: Schedule, run: Id, m: string, other: Id): seq<Event> {
    UntilResting(rec, run, m) + [FireNow(rec.slug, other)] + [Begin(2, true)]
  }

  /** The only slot is taken by the other run, whose dispatch is pending. */
  ghost predicate BusyState(u: State, cfg: Config, rec: Schedule, run: Id, other: Id) {
    && Inv(u) && u.cfg == cfg && u.next == 3 && u.gate == Gate(1, [], [], {2}, [], []) && !u.shuttingDown
    && u.tasks == map[1 := Task(rec, run, 1, Backoff), 2 := Task(rec, other, 0, Dispatching)]
    && u.store.schedules == map[rec.id := rec] && run in u.store.runs
    && u.fired.Keys == {run, other} && u.legacy == {} && u.known == {rec.id}
  }

  lemma ReachesBusy(cfg: Config, rec: Schedule, run: Id, m: string, other: Id) returns (u: State)
    requires cfg.maxConcurrentRuns == 1 && Retries(cfg, Task(rec, run, 0, Observing), m) && run != other
    ensures Reaches(Boot(cfg, rec), UntilBusy(rec, run, m, other), u) && BusyState(u, cfg, rec, run, other)
  {
    hide Inv, Then, CanRun, Enabled, Reaches, Retries;
    var s, es := Boot(cfg, rec), UntilResting(rec, run, m);
    var a := ReachesResting(cfg, rec, run, m);
    assert a.store.WithSlug(rec.slug) == {rec.id};
    DoFire(a, rec, other);
    ReachesMore(s, es, a, FireNow(rec.slug, other));
    var b := Then(a, FireNow(rec.slug, other));
    DoBegin(b, 2);
    ReachesMore(s, es + [FireNow(rec.slug, other)], b, Begin(2, true));
    u := Then(b, Begin(2, true));
    assert {} + {2} == {2};
  }

  /** The retry comes due, and waits. */
  lemma DoRetryWaits(s: State, t: Ticket)
    requires Inv(s) && InPhase(s, t, Backoff) && Quiet(s) && !s.shuttingDown
    requires s.tasks[t].rec.id in s.store.schedules && s.gate.inFlight >= s.cfg.maxConcurrentRuns
    ensures Enabled(s, RetryDue(t)) && InOrder(s, RetryDue(t))
    ensures var u := Then(s, RetryDue(t));
      u == s.(tasks := s.tasks[t := s.tasks[t].(phase := Gated)], retryTimers := u.retryTimers,
              gate := s.gate.(queue := s.gate.queue + [t], arrivals := s.gate.arrivals + [t]))
  {
    hide Inv, RetryStep, Quiet;
    DoRetry(s, t);
    RetryWaits(s, t);
  }

  lemma RetryWaits(s: State, t: Ticket)
    requires InPhase(s, t, Backoff) && !s.shuttingDown
    requires s.tasks[t].rec.id in s.store.schedules && s.gate.inFlight >= s.cfg.maxConcurrentRuns
    ensures var u := RetryStep(s, t);
      u == s.(tasks := s.tasks[t := s.tasks[t].(phase := Gated)], retryTimers := u.retryTimers,
              gate := s.gate.(queue := s.gate.queue + [t], arrivals := s.gate.arrivals + [t]))
  {
  }

  function UntilDeleted(rec: Schedule, run: Id, m: string, other: Id): seq<Event> {
    UntilBusy(rec, run, m, other) + [RetryDue(1)] + [Delete(rec.slug)]
  }

  lemma ReachesDeleted(cfg: Config, rec: Schedule, run: Id, m: string, other: Id) returns (u: State)
    requires cfg.maxConcurrentRuns == 1 && Retries(cfg, Task(rec, run, 0, Observing), m) && run != other
    ensures Reaches(Boot(cfg, rec), UntilDeleted(rec, run, m, other), u) && Inv(u) && u.store.schedules == map[]
    ensures u.tasks == map[1 := Task(rec, run, 1, Gated), 2 := Task(rec, other, 0, Dispatching)]
    ensures u.gate.queue == [1] && u.gate.woken == [] && !u.shuttingDown
  {
    hide Inv, Then, CanRun, Enabled, Reaches, Retries;
    var s, es := Boot(cfg, rec), UntilBusy(rec, run, m, other);
    var a := ReachesBusy(cfg, rec, run, m, other);
    DoRetryWaits(a, 1);
    ReachesMore(s, es, a, RetryDue(1));
    var b := Then(a, RetryDue(1));
    assert b.store.WithSlug(rec.slug) == {rec.id};
    var id := ThenDelete(b, rec.slug);
    assert id in {rec.id};
    DeleteEnabled(b, rec.slug);
    GatedAreNoTimers(b, rec.id);
    ReachesMore(s, es + [RetryDue(1)], b, Delete(rec.slug));
    u := Then(b, Delete(rec.slug));
  }

  lemma GatedAreNoTimers(s: State, sid: Id)
    requires Inv(s) && forall t :: t in s.tasks ==> s.tasks[t].phase != Backoff
    ensures TimersOf(s, sid) == {}
  {
    forall t | t in TimersOf(s, sid) ensures false {
      TrackedIsBackoff(s, sid, t);
    }
  }

  lemma DeleteEnabled(s: State, slug: string)
    requires Inv(s) && s.store.WithSlug(slug) != {}
    ensures Enabled(s, Delete(slug))
  {
    hide Inv;
  }

  /** The dispatch of the call is refused, which ends its attempt. */
  lemma DoReject(s: State, t: Ticket)
    requires Inv(s) && InPhase(s, t, Dispatching)
    ensures Enabled(s, DispatchRejects(t, "refused"))
    ensures var u := Then(s, DispatchRejects(t, "refused"));
      && u.tasks == s.tasks[t := s.tasks[t].(phase := Releasing)] && u.gate == s.gate && u.cfg == s.cfg
      && u.shuttingDown == s.shuttingDown && u.log == s.log && u.next == s.next
      && u.fired == s.fired && u.legacy == s.legacy
      && (!(s.tasks[t].rec.deleteAfterRun && s.tasks[t].rec.kind == AtKind) ==>
            u.store.schedules == s.store.schedules)
  {
    hide Inv, RejectStep;
    StoreUnique(s);
    RejectGives(s, t);
  }

  lemma RejectGives(s: State, t: Ticket)
    requires t in s.tasks
    ensures var u := RejectStep(s, t, "refused");
      && u.tasks == s.tasks[t := s.tasks[t].(phase := Releasing)] && u.gate == s.gate && u.cfg == s.cfg
      && u.shuttingDown == s.shuttingDown && u.log == s.log && u.next == s.next
      && u.fired == s.fired && u.legacy == s.legacy
      && (!(s.tasks[t].rec.deleteAfterRun && s.tasks[t].rec.kind == AtKind) ==>
            u.store.schedules == s.store.schedules)
  {
    hide EndAttempt;
    EndGives(Settle(s, s.tasks[t].Instance(), TimeoutOutcome("cancelled")), t, Failed, Some("refused"));
  }

  lemma EndGives(s: State, t: Ticket, status: Status, error: Option<string>)
    requires t in s.tasks
    ensures var u := EndAttempt(s, t, status, error);
      && u.tasks == s.tasks[t := s.tasks[t].(phase := Releasing)] && u.gate == s.gate && u.cfg == s.cfg
      && u.shuttingDown == s.shuttingDown && u.log == s.log && u.next == s.next
      && u.fired == s.fired && u.legacy == s.legacy
      && (!(s.tasks[t].rec.deleteAfterRun && s.tasks[t].rec.kind == AtKind) ==>
            u.store.schedules == s.store.schedules)
  {
  }

  function AfterDeletion(): seq<Event> {
    [DispatchRejects(2, "refused")] + [ReleaseSlot(2)] + [ResumeWaiter] + [Begin(1, true)]
  }

  /** Deleting the schedule while its retry waits does not keep the retry from dispatching. */
  lemma DeletedScheduleDispatches(cfg: Config, rec: Schedule, run: Id, m: string, other: Id)
    returns (u: State, v: State)
    requires cfg.maxConcurrentRuns == 1 && Retries(cfg, Task(rec, run, 0, Observing), m) && run != other
    ensures Booted(Boot(cfg, rec)) && Reaches(Boot(cfg, rec), UntilDeleted(rec, run, m, other), u)
    ensures rec.id !in u.store.schedules && Instance(rec.id, run, 1) !in u.log
    ensures Reaches(u, AfterDeletion(), v) && Instance(rec.id, run, 1) in v.log
  {
    hide Inv, Then, CanRun, Enabled, Reaches, Retries;
    BootIsBooted(cfg, rec);
    u := ReachesDeleted(cfg, rec, run, m, other);
    NotLoggedYet(u, 1);
    ReachesNone(u);
    DoReject(u, 2);
    ReachesMore(u, [], u, DispatchRejects(2, "refused"));
    var a := Then(u, DispatchRejects(2, "refused"));
    DoRelease(a, 2);
    ReachesMore(u, [] + [DispatchRejects(2, "refused")], a, ReleaseSlot(2));
    var b := Then(a, ReleaseSlot(2));
    ThenResume(b);
    ReachesMore(u, [] + [DispatchRejects(2, "refused")] + [ReleaseSlot(2)], b, ResumeWaiter);
    var c := Then(b, ResumeWaiter);
    BeginLogs(c, 1);
    BeginEnabled(c, 1);
    ReachesMore(u, [] + [DispatchRejects(2, "refused")] + [ReleaseSlot(2)] + [ResumeWaiter], c, Begin(1, true));
    v := Then(c, Begin(1, true));
    assert [] + [DispatchRejects(2, "refused")] == [DispatchRejects(2, "refused")];
  }

  lemma BeginEnabled(s: State, t: Ticket)
    requires Inv(s) && InPhase(s, t, Slotted)
    ensures Enabled(s, Begin(t, true))
  {
    hide Inv;
  }

  // ---- A stop while a retry waits behind somebody ----

  function UntilStopped(rec: Schedule, run: Id, m: string, other: Id, third: Id): seq<Event> {
    UntilBusy(rec, run, m, other) + [FireNow(rec.slug, third)] + [RetryDue(1)] + [Stop]
  }

  /** One call holds the only slot and one waits before the retry: after a stop the retry is never woken. */
  lemma StopStrandsRetry(cfg: Config, rec: Schedule, run: Id, m: string, other: Id, third: Id, later: seq<Event>)
    returns (u: State)
    requires cfg.maxConcurrentRuns == 1 && Retries(cfg, Task(rec, run, 0, Observing), m)
    requires run != other && run != third && other != third
    ensures Booted(Boot(cfg, rec)) && Reaches(Boot(cfg, rec), UntilStopped(rec, run, m, other, third), u)
    ensures run in u.store.runs && u.store.runs[run].status == Queued && CarriedBy(u.tasks, run, 1)
    ensures CanRun(u, later) ==>
      var v := Run(u, later);
      InPhase(v, 1, Gated) && run !in v.abandoned && (run in v.store.runs ==> v.store.runs[run].status == Queued)
  {
    hide Inv, Then, CanRun, Enabled, Reaches, Retries;
    BootIsBooted(cfg, rec);
    var s, es := Boot(cfg, rec), UntilBusy(rec, run, m, other);
    var a := ReachesBusy(cfg, rec, run, m, other);
    assert a.store.WithSlug(rec.slug) == {rec.id};
    DoFire(a, rec, third);
    ReachesMore(s, es, a, FireNow(rec.slug, third));
    var b := Then(a, FireNow(rec.slug, third));
    DoRetryWaits(b, 1);
    ReachesMore(s, es + [FireNow(rec.slug, third)], b, RetryDue(1));
    var c := Then(b, RetryDue(1));
    StopEnabled(c);
    ReachesMore(s, es + [FireNow(rec.slug, third)] + [RetryDue(1)], c, Stop);
    u := Then(c, Stop);
    assert c.gate.queue == [3, 1] && c.gate.holders == {2} && c.gate.queue[1] == 1;
    StoppedWaits(c, 1);
    if CanRun(u, later) {
      StopDecides(c, later, 1);
    }
  }

  lemma StopEnabled(s: State)
    requires Inv(s)
    ensures Enabled(s, Stop)
  {
    hide Inv;
  }

  lemma StoppedWaits(s: State, t: Ticket)
    requires Inv(s) && InPhase(s, t, Gated) && s.tasks[t].run in s.store.runs && Enabled(s, Stop)
    ensures var u, run := Then(s, Stop), s.tasks[t].run;
      CarriedBy(u.tasks, run, t) && run in u.store.runs && u.store.runs[run].status == Queued
  {
    AllTimersAreBackoff(s);
    CarrierFacts(s, t);
    hide Inv, AllTimers, Then;
    StopTasks(s);
    StopKeepsStore(s);
  }

  lemma StopKeepsStore(s: State)
    requires Inv(s) && Enabled(s, Stop)
    ensures Then(s, Stop).store == s.store
  {
    hide Inv;
    StoreUnique(s);
  }

  // ---- A one-shot schedule saved anew while its attempt is observed ----

  function UntilRenewed(rec: Schedule, run: Id, renewed: Schedule): seq<Event> {
    UntilObserved(rec, run) + [Delete(rec.slug)] + [Save(renewed, true)]
  }

  /** The late success of the old attempt deletes the schedule saved under its slug. */
  lemma LateSuccessDeletesSuccessor(cfg: Config, rec: Schedule, run: Id, renewed: Schedule)
    returns (u: State, v: State)
    requires cfg.maxConcurrentRuns >= 1 && rec.deleteAfterRun && rec.kind == AtKind
    requires renewed.slug == rec.slug && renewed.id != rec.id
    ensures Booted(Boot(cfg, rec)) && Reaches(Boot(cfg, rec), UntilRenewed(rec, run, renewed), u)
    ensures renewed.id in u.store.schedules
    ensures Reaches(u, [AgentEnd(Instance(rec.id, run, 0))] + [Conclude(0)], v)
    ensures renewed.id !in v.store.schedules
  {
    hide Inv, Then, CanRun, Enabled, Reaches;
    var s, es, i := Boot(cfg, rec), UntilObserved(rec, run), Instance(rec.id, run, 0);
    BootIsBooted(cfg, rec);
    var a := ReachesObserved(cfg, rec, run);
    assert a.store.WithSlug(rec.slug) == {rec.id};
    var b, c;
    b, u, c := SuccessorIsDeleted(a, 0, renewed);
    ReachesMore(s, es, a, Delete(rec.slug));
    ReachesMore(s, es + [Delete(rec.slug)], b, Save(renewed, true));
    ReachesNone(u);
    ReachesMore(u, [], u, AgentEnd(i));
    ReachesMore(u, [] + [AgentEnd(i)], c, Conclude(0));
    v := Then(c, Conclude(0));
    assert [] + [AgentEnd(i)] == [AgentEnd(i)];
  }

  // ---- A newcomer that overtakes a woken caller ----

  function UntilBoth(rec: Schedule, first: Id, second: Id): seq<Event> {
    [FireNow(rec.slug, first)] + [FireNow(rec.slug, second)]
  }

  /** With one slot: the first call has it, the second waits. */
  lemma ReachesBoth(cfg: Config, rec: Schedule, first: Id, second: Id) returns (u: State)
    requires cfg.maxConcurrentRuns == 1 && first != second
    ensures Reaches(Boot(cfg, rec), UntilBoth(rec, first, second), u) && Inv(u)
    ensures u.cfg == cfg && u.store == Store(map[rec.id := rec], map[]) && u.fired.Keys == {first, second}
    ensures u.tasks == map[0 := Task(rec, first, 0, Slotted), 1 := Task(rec, second, 0, Gated)]
    ensures u.gate == Gate(1, [1], [], {0}, [1], []) && !u.shuttingDown && u.legacy == {}
  {
    hide Inv, Then, CanRun, Enabled, Reaches;
    var s := Boot(cfg, rec);
    BootIsBooted(cfg, rec);
    ReachesNone(s);
    assert s.store.WithSlug(rec.slug) == {rec.id};
    DoFire(s, rec, first);
    ReachesMore(s, [], s, FireNow(rec.slug, first));
    var a := Then(s, FireNow(rec.slug, first));
    DoFire(a, rec, second);
    ReachesMore(s, [] + [FireNow(rec.slug, first)], a, FireNow(rec.slug, second));
    u := Then(a, FireNow(rec.slug, second));
    assert [] + [FireNow(rec.slug, first)] == [FireNow(rec.slug, first)];
  }

  function UntilReleased(rec: Schedule, first: Id, second: Id): seq<Event> {
    UntilBoth(rec, first, second) + [Begin(0, true)] + [DispatchRejects(0, "refused")] + [ReleaseSlot(0)]
  }

  /** The first has given its slot back, and the second is woken. */
  lemma ReachesReleased(cfg: Config, rec: Schedule, first: Id, second: Id) returns (u: State)
    requires cfg.maxConcurrentRuns == 1 && first != second && !(rec.deleteAfterRun && rec.kind == AtKind)
    ensures Reaches(Boot(cfg, rec), UntilReleased(rec, first, second), u) && Inv(u)
    ensures u.cfg == cfg && u.store.schedules == map[rec.id := rec] && u.fired.Keys == {first, second} && u.legacy == {}
    ensures u.gate.inFlight == 0 && u.gate.woken == [1] && u.gate.queue == [] && !u.shuttingDown
  {
    hide Inv, Then, CanRun, Enabled, Reaches;
    var s, es := Boot(cfg, rec), UntilBoth(rec, first, second);
    var b := ReachesBoth(cfg, rec, first, second);
    DoBegin(b, 0);
    ReachesMore(s, es, b, Begin(0, true));
    var c := Then(b, Begin(0, true));
    DoReject(c, 0);
    ReachesMore(s, es + [Begin(0, true)], c, DispatchRejects(0, "refused"));
    var d := Then(c, DispatchRejects(0, "refused"));
    DoRelease(d, 0);
    ReachesMore(s, es + [Begin(0, true)] + [DispatchRejects(0, "refused")], d, ReleaseSlot(0));
    u := Then(d, ReleaseSlot(0));
  }

  /** A third call slips in before the woken one runs: two attempts at once, for one slot. */
  lemma TwoRunAtOnce(cfg: Config, rec: Schedule, first: Id, second: Id, third: Id) returns (u: State)
    requires cfg.maxConcurrentRuns == 1 && !(rec.deleteAfterRun && rec.kind == AtKind)
    requires first != second && first != third && second != third
    ensures Booted(Boot(cfg, rec))
    ensures Reaches(Boot(cfg, rec), UntilReleased(rec, first, second) + [FireNow(rec.slug, third)] + [ResumeWaiter], u)
    ensures u.gate.inFlight == 2 > u.cfg.maxConcurrentRuns
  {
    hide Inv, Then, CanRun, Enabled, Reaches;
    var s, es := Boot(cfg, rec), UntilReleased(rec, first, second);
    BootIsBooted(cfg, rec);
    var a := ReachesReleased(cfg, rec, first, second);
    assert a.store.WithSlug(rec.slug) == {rec.id};
    DoFire(a, rec, third);
    ReachesMore(s, es, a, FireNow(rec.slug, third));
    var b := Then(a, FireNow(rec.slug, third));
    ThenResume(b);
    ReachesMore(s, es + [FireNow(rec.slug, third)], b, ResumeWaiter);
    u := Then(b, ResumeWaiter);
  }
}
