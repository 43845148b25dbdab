/** Budgets, the concurrency bound, and the corners where the obvious guarantee fails. */
module ScheduleConsequences {
  import opened Basics
  import opened ScheduleTypes
  import opened ScheduleGate
  import opened ScheduleState
  import opened ScheduleInvariant
  import opened ScheduleRuns
  import opened ScheduleTheorems

  // ---- Dispatches ----

  function Dispatches(log: seq<Instance>, run: Id): nat {
    if log == [] then 0
    else Dispatches(log[..|log| - 1], run) + (if log[|log| - 1].run == run then 1 else 0)
  }

  function Attempts(log: seq<Instance>, run: Id): (r: set<nat>)
    ensures forall a :: a in r ==> exists k :: 0 <= k < |log| && log[k].run == run && log[k].attempt == a
  {
    if log == [] then {}
    else
      var last := log[|log| - 1];
      var r := Attempts(log[..|log| - 1], run);
      if last.run == run then r + {last.attempt} else r
  }

  lemma {:induction false} DistinctAttempts(log: seq<Instance>, run: Id, sid: Id)
    requires NoDup(log) && forall k :: 0 <= k < |log| && log[k].run == run ==> log[k].sid == sid
    ensures |Attempts(log, run)| == Dispatches(log, run)
  {
    if log != [] {
      var front, last := log[..|log| - 1], log[|log| - 1];
      DistinctAttempts(front, run, sid);
      if last.run == run {
        forall k | 0 <= k < |front| && front[k].run == run ensures front[k].attempt != last.attempt {
          assert log[k] != last;
        }
        assert last.attempt !in Attempts(front, run);
      }
    }
  }

  function UpTo(n: nat): (s: set<nat>)
    ensures |s| == n + 1 && forall k: nat :: k in s <==> k <= n
  {
    if n == 0 then {0}
    else
      var t := UpTo(n - 1);
      assert n !in t;
      t + {n}
  }

  lemma SubsetSize<T>(a: set<T>, b: set<T>)
    requires a <= b
    ensures |a| <= |b|
  {
    assert b == a + (b - a);
  }

  lemma LogFacts(s: State)
    requires Inv(s)
    ensures LogSound(s.cfg, s.log, s.fired, s.legacy)
  {
  }

  /** A run dispatches at most once more often than its budget of retries. */
  lemma DispatchesWithinBudget(s: State, run: Id)
    requires Inv(s) && run in s.fired
    ensures Dispatches(s.log, run) <= Budget(s.fired[run], s.cfg) + 1
  {
    LogFacts(s);
    hide Inv;
    assert forall k :: 0 <= k < |s.log| ==> s.log[k] in s.log;
    DistinctAttempts(s.log, run, s.fired[run].id);
    SubsetSize(Attempts(s.log, run), UpTo(Budget(s.fired[run], s.cfg)));
  }

  /** No two dispatches ever share an instance id. */
  lemma InstanceIdsDistinct(s: State, j: nat, k: nat)
    requires Inv(s) && j < k < |s.log|
    requires UlidShaped(s.log[j]) && UlidShaped(s.log[k])
    ensures InstanceId(s.log[j]) != InstanceId(s.log[k])
  {
    LogFacts(s);
    if InstanceId(s.log[j]) == InstanceId(s.log[k]) {
      InstanceIdInjective(s.log[j], s.log[k]);
    }
  }

  /** The instance an event or timer is about. */
  function About(e: Event): Option<Instance> {
    match e
    case TurnError(i, _) => Some(i)
    case AgentEnd(i) => Some(i)
    case ObserveTimeout(i) => Some(i)
    case _ => None
  }

  /** An event for one attempt neither settles nor marks the observation of another; and as
      the ids are ULIDs, the text that names the one cannot name the other. */
  lemma EventsStayWithTheirAttempt(s: State, e: Event, j: Instance)
    requires Inv(s) && Enabled(s, e) && About(e).Some? && About(e).value != j
    ensures var u := Then(s, e);
      && (j in u.pending <==> j in s.pending) && (j in s.pending ==> u.pending[j] == s.pending[j])
      && (j in u.outcomes <==> j in s.outcomes) && (j in s.outcomes ==> u.outcomes[j] == s.outcomes[j])
    ensures UlidShaped(About(e).value) && UlidShaped(j) ==> InstanceId(About(e).value) != InstanceId(j)
  {
    hide EndAttempt, BeginStep, ConcludeStep, RetryStep, Sync, StopStep, Fire, ResumeStep,
         GateLinked, RowsSound, TasksSound, RowsAgree, OpenRowsCarried, AbandonedSound, ObservationsSound,
         LogSound, LogBehind, TimersTracked, NoIdleSlot, GateInv, InstanceId;
    StoreUnique(s);
    if UlidShaped(About(e).value) && UlidShaped(j) && InstanceId(About(e).value) == InstanceId(j) {
      InstanceIdInjective(About(e).value, j);
    }
  }

  // ---- The gate in every interleaving ----

  /** Slots are conserved, waiters run again in order of arrival, and before
      shutdown nobody waits while a slot is idle. */
  lemma GateConserves(s: State)
    requires Inv(s)
    ensures s.gate.inFlight == |set t | t in s.tasks && s.tasks[t].HoldsSlot()|
    ensures s.gate.arrivals == s.gate.served + s.gate.woken + s.gate.queue && NoDup(s.gate.arrivals)
    ensures !s.shuttingDown && s.gate.queue != [] ==> Committed(s.gate) >= s.cfg.maxConcurrentRuns
  {
    assert s.gate.holders == set t | t in s.tasks && s.tasks[t].HoldsSlot();
  }

  /** With the configured minimum of one slot, a waiter always has somebody to wake it. */
  lemma NobodyStranded(s: State)
    requires Inv(s) && !s.shuttingDown && s.gate.queue != [] && s.cfg.maxConcurrentRuns >= 1
    ensures s.gate.woken != [] || exists t :: t in s.tasks && s.tasks[t].HoldsSlot()
  {
    GateConserves(s);
    var holders := set t | t in s.tasks && s.tasks[t].HoldsSlot();
    if s.gate.woken == [] {
      assert holders != {};
      var t :| t in holders;
    }
  }

  /** The event sends a caller into the gate. */
  predicate EntersGate(s: State, e: Event) {
    && !s.shuttingDown
    && match e
       case FireNow(_, _) => true
       case CronTick(_, _) => true
       case RetryDue(t) => t in s.tasks && s.tasks[t].rec.id in s.store.schedules
       case _ => false
  }

  predicate Overtakes(s: State, e: Event) {
    EntersGate(s, e) && Overtaken(s.gate, s.cfg.maxConcurrentRuns)
  }

  /** What each event does to the gate. */
  function GateAfter(s: State, e: Event): Gate
    requires e.ResumeWaiter? ==> s.gate.woken != []
  {
    if EntersGate(s, e) then
      Acquire(s.gate, s.cfg.maxConcurrentRuns, if e.RetryDue? then e.ticket else s.next)
    else match e
      case ResumeWaiter => Resume(s.gate, s.shuttingDown)
      case ReleaseSlot(t) => Release(s.gate, t)
      case _ => s.gate
  }

  lemma EndKeepsGate(s: State, t: Ticket, status: Status, error: Option<string>)
    requires t in s.tasks
    ensures EndAttempt(s, t, status, error).gate == s.gate
  {
  }

  lemma ArmKeepsGate(s: State, t: Ticket)
    requires t in s.tasks
    ensures ArmRetry(s, t).gate == s.gate
  {
  }

  lemma AttemptsKeepGate(s: State, t: Ticket, ok: bool, o: Outcome)
    requires t in s.tasks
    ensures BeginStep(s, t, ok).gate == s.gate && ConcludeStep(s, t, o).gate == s.gate
  {
    hide EndAttempt, ArmRetry, Retries;
    ArmKeepsGate(s, t);
    var u := s.(store := s.store.Started(s.tasks[t].rec.id, s.tasks[t].run));
    EndKeepsGate(u, t, Skipped, Some("provider endpoint unavailable"));
    match o
    case OkOutcome => EndKeepsGate(s, t, Succeeded, None);
    case TimeoutOutcome(m) => EndKeepsGate(s, t, TimedOut, Some(m));
    case ErrorOutcome(m) =>
      EndKeepsGate(s, t, if IsTransient(s.cfg.classify(m)) then Failed else Skipped, Some(m));
  }

  lemma SettleKeepsGate(s: State, i: Instance, o: Outcome)
    ensures Settle(s, i, o).gate == s.gate && Settle(s, i, o).tasks == s.tasks
    ensures TimeoutStep(s, i).gate == s.gate && StopStep(s).gate == s.gate
  {
  }

  lemma SyncKeepsGate(s: State, rec: Schedule, validPattern: bool)
    ensures Sync(s, rec, validPattern).gate == s.gate
  {
  }

  lemma RetryGate(s: State, t: Ticket)
    requires t in s.tasks
    ensures RetryStep(s, t).gate ==
      if s.shuttingDown || s.tasks[t].rec.id !in s.store.schedules then s.gate
      else Acquire(s.gate, s.cfg.maxConcurrentRuns, t)
  {
  }

  lemma NextGate(s: State, e: Event)
    requires Inv(s) && Enabled(s, e)
    ensures Then(s, e).gate == GateAfter(s, e)
  {
    hide EndAttempt, BeginStep, ConcludeStep, RetryStep, Settle, Sync, TimeoutStep, StopStep,
         GateLinked, RowsSound, TasksSound, RowsAgree, OpenRowsCarried, AbandonedSound, ObservationsSound,
         LogSound, LogBehind, TimersTracked, NoIdleSlot, GateInv, Acquire, Release, Resume, TheId;
    StoreUnique(s);
    match e
    case Begin(t, ok) => AttemptsKeepGate(s, t, ok, OkOutcome);
    case Conclude(t) => AttemptsKeepGate(s, t, true, s.outcomes[s.tasks[t].Instance()]);
    case DispatchRejects(t, reason) =>
      var i := s.tasks[t].Instance();
      SettleKeepsGate(s, i, TimeoutOutcome("cancelled"));
      EndKeepsGate(Settle(s, i, TimeoutOutcome("cancelled")), t, Failed, Some(reason));
    case RetryDue(t) => RetryGate(s, t);
    case ResumeWaiter => GateWakes(s.gate, s.tasks, s.next);
    case AgentEnd(i) => if i in s.pending { SettleKeepsGate(s, i, s.Verdict(i)); }
    case ObserveTimeout(i) => SettleKeepsGate(s, i, OkOutcome);
    case Save(rec, valid) =>
      SyncKeepsGate(Saved(s, rec), rec, valid);
    case Stop => SettleKeepsGate(s, Instance("", "", 0), OkOutcome);
    case _ =>
  }

  /** The one event that can push slots in use or promised over the maximum. */
  lemma OnlyOvertakingExceeds(s: State, e: Event)
    requires Inv(s) && Enabled(s, e) && Committed(s.gate) <= s.cfg.maxConcurrentRuns
    ensures Then(s, e).cfg == s.cfg
    ensures Committed(Then(s, e).gate) <= s.cfg.maxConcurrentRuns <==> !Overtakes(s, e)
  {
    NextFrame(s, e);
    NextGate(s, e);
    hide Inv, Next, Enabled;
  }

  ghost predicate NobodyOvertakes(s: State, es: seq<Event>)
    requires Inv(s) && CanRun(s, es)
    decreases |es|
  {
    es == [] || (!Overtakes(s, es[0]) && NobodyOvertakes(Then(s, es[0]), es[1..]))
  }

  ghost predicate AlwaysWithin(s: State, es: seq<Event>)
    requires Inv(s) && CanRun(s, es)
    decreases |es|
  {
    Committed(s.gate) <= s.cfg.maxConcurrentRuns
    && (es == [] || AlwaysWithin(Then(s, es[0]), es[1..]))
  }

  /** Throughout a run the slots in use or promised stay within the maximum if and only
      if no caller enters the gate and takes a slot already promised to a woken one. */
  lemma {:induction false} BoundedIffNobodyOvertakes(s: State, es: seq<Event>)
    requires Inv(s) && CanRun(s, es) && Committed(s.gate) <= s.cfg.maxConcurrentRuns
    ensures AlwaysWithin(s, es) <==> NobodyOvertakes(s, es)
    decreases |es|
  {
    if es != [] {
      OnlyOvertakingExceeds(s, es[0]);
      var u := Then(s, es[0]);
      if Committed(u.gate) <= s.cfg.maxConcurrentRuns {
        BoundedIffNobodyOvertakes(u, es[1..]);
      } else {
        assert !AlwaysWithin(u, es[1..]);
      }
    }
  }

  /** Callers only enter the gate when every woken waiter has run again. */
  ghost predicate WokenRunFirst(s: State, es: seq<Event>)
    requires Inv(s) && CanRun(s, es)
    decreases |es|
  {
    es == [] || ((EntersGate(s, es[0]) ==> s.gate.woken == []) && WokenRunFirst(Then(s, es[0]), es[1..]))
  }

  /** Then at most the configured number of attempts ever runs at once. */
  lemma {:induction false} PromptResumptionBounds(s: State, es: seq<Event>)
    requires Inv(s) && CanRun(s, es) && WokenRunFirst(s, es) && Committed(s.gate) <= s.cfg.maxConcurrentRuns
    ensures AlwaysWithin(s, es) && Run(s, es).gate.inFlight <= s.cfg.maxConcurrentRuns
    decreases |es|
  {
    if es != [] {
      OnlyOvertakingExceeds(s, es[0]);
      PromptResumptionBounds(Then(s, es[0]), es[1..]);
    }
  }

  ghost function Wakes(n: nat): seq<Event> {
    if n == 0 then [] else [ResumeWaiter] + Wakes(n - 1)
  }

  lemma {:induction false} WakingAll(s: State)
    requires Inv(s) && !s.shuttingDown
    ensures CanRun(s, Wakes(|s.gate.woken|))
    ensures Run(s, Wakes(|s.gate.woken|)).gate.inFlight == Committed(s.gate)
    decreases |s.gate.woken|
  {
    hide Inv, Next;
    if s.gate.woken != [] {
      var es := Wakes(|s.gate.woken|);
      var u := Then(s, ResumeWaiter);
      NextGate(s, ResumeWaiter);
      StaysUp(s);
      assert es[0] == ResumeWaiter && es[1..] == Wakes(|u.gate.woken|);
      WakingAll(u);
    }
  }

  lemma StaysUp(s: State)
    requires Inv(s) && Enabled(s, ResumeWaiter)
    ensures Then(s, ResumeWaiter).shuttingDown == s.shuttingDown
  {
    GateWakes(s.gate, s.tasks, s.next);
    hide Inv;
  }

  /** Whenever somebody does overtake, the bound really breaks as soon as the
      promised callers run again before the next release. */
  lemma OvertakingExceeds(s: State, e: Event)
    requires Inv(s) && Enabled(s, e) && Overtakes(s, e)
    ensures var u := Then(s, e);
      && CanRun(u, Wakes(|u.gate.woken|))
      && Run(u, Wakes(|u.gate.woken|)).gate.inFlight > s.cfg.maxConcurrentRuns
  {
    NextGate(s, e);
    StillRunning(s, e);
    WakingAll(Then(s, e));
  }

  lemma StillRunning(s: State, e: Event)
    requires Inv(s) && Enabled(s, e) && EntersGate(s, e)
    ensures !Then(s, e).shuttingDown
  {
    StoreUnique(s);
    hide Inv, Acquire, TheId;
  }

  // ---- Deleted schedules ----

  /** Auto-delete goes by slug: besides its own schedule it deletes, with all its
      runs, whatever schedule has been saved under the same slug since. */
  lemma AutoDeleteRemoves(s: State, rec: Schedule, id: Id)
    requires Inv(s) && rec.deleteAfterRun && rec.kind == AtKind && id in s.store.schedules
    ensures var u := AutoDelete(s, rec);
      && (id !in u.store.schedules <==> s.store.schedules[id].slug == rec.slug)
      && (id in u.store.schedules ==>
            forall r :: r in s.store.runs && s.store.runs[r].sid == id ==> r in u.store.runs)
  {
    hide Inv;
  }

  // ---- Short runs in which the obvious guarantee fails ----

  lemma LiveIsNoTimer(s: State, t: Ticket)
    requires Inv(s) && t in s.tasks && s.tasks[t].phase != Backoff
    ensures forall sid :: t !in TimersOf(s, sid)
  {
    forall sid ensures t !in TimersOf(s, sid) {
      if t in TimersOf(s, sid) {
        TrackedIsBackoff(s, sid, t);
      }
    }
  }

  lemma ThenSave(s: State, rec: Schedule)
    requires Inv(s) && CanSave(s, rec)
    ensures Then(s, Save(rec, true)) == Sync(Saved(s, rec), rec, true)
  {
    hide Inv, Sync, Saved;
    StoreUnique(s);
  }

  lemma ThenDelete(s: State, slug: string) returns (id: Id)
    requires Inv(s) && s.store.WithSlug(slug) != {}
    ensures s.store.WithSlug(slug) == {id} && id in s.store.schedules
    ensures Then(s, Delete(slug)) == DeleteStep(s, id)
  {
    hide Inv, DeleteStep;
    StoreUnique(s);
    id := TheId(s.store, slug);
  }

  /** Deleting a schedule leaves a running attempt and its promise alone. */
  lemma DeleteSpares(s: State, t: Ticket, slug: string)
    requires Inv(s) && t in s.tasks && s.tasks[t].phase != Backoff && s.store.WithSlug(slug) != {}
    ensures var u := Then(s, Delete(slug));
      && t in u.tasks && u.tasks[t] == s.tasks[t] && u.outcomes == s.outcomes && u.pending == s.pending
      && u.shuttingDown == s.shuttingDown
      && u.known == s.known
      && u.store.schedules == s.store.schedules - s.store.WithSlug(slug)
  {
    LiveIsNoTimer(s, t);
    hide Inv, TimersOf, Next;
    var id := ThenDelete(s, slug);
  }

  lemma SaveSpares(s: State, t: Ticket, rec: Schedule)
    requires Inv(s) && t in s.tasks && s.tasks[t].phase != Backoff && CanSave(s, rec)
    ensures var u := Then(s, Save(rec, true));
      && t in u.tasks && u.tasks[t] == s.tasks[t] && u.outcomes == s.outcomes && u.pending == s.pending
      && u.shuttingDown == s.shuttingDown
      && u.store.schedules == s.store.schedules[rec.id := rec]
  {
    LiveIsNoTimer(s, t);
    hide Inv, Next, CanSave;
    ThenSave(s, rec);
  }

  /** The attempt has ended well, or may still do so. */
  ghost predicate MayEndWell(s: State, i: Instance) {
    || (i in s.outcomes && s.outcomes[i] == OkOutcome)
    || (i in s.pending && !s.pending[i].hadError && !s.shuttingDown)
  }

  /** A one-shot schedule is deleted and saved anew while its attempt is still observed, or
      before its outcome is seen: when the old attempt ends well, the new schedule is deleted. */
  lemma SuccessorIsDeleted(s: State, t: Ticket, renewed: Schedule) returns (u: State, v: State, w: State)
    requires Inv(s) && InPhase(s, t, Observing) && MayEndWell(s, s.tasks[t].Instance())
    requires var rec := s.tasks[t].rec;
      && rec.deleteAfterRun && rec.kind == AtKind && s.store.WithSlug(rec.slug) == {rec.id}
      && renewed.slug == rec.slug && renewed.id !in s.known
    ensures Enabled(s, Delete(renewed.slug)) && u == Then(s, Delete(renewed.slug))
    ensures Inv(u) && Enabled(u, Save(renewed, true)) && v == Then(u, Save(renewed, true))
    ensures Inv(v) && renewed.id in v.store.schedules
    ensures var i := s.tasks[t].Instance();
      if i in s.pending && !s.shuttingDown then Enabled(v, AgentEnd(i)) && w == Then(v, AgentEnd(i)) else w == v
    ensures Inv(w) && Enabled(w, Conclude(t)) && renewed.id !in Then(w, Conclude(t)).store.schedules
  {
    hide Inv, Then, Enabled, EndedWell, MayEndWell;
    u, v := SuccessorSaved(s, t, renewed);
    MayStillEndWell(s, v, s.tasks[t].Instance());
    w := EndsWell(v, t);
    LateConclusion(s, v, w, t, renewed);
  }

  lemma MayStillEndWell(s: State, v: State, i: Instance)
    requires MayEndWell(s, i) && v.outcomes == s.outcomes && v.pending == s.pending && v.shuttingDown == s.shuttingDown
    ensures MayEndWell(v, i)
  {
  }

  lemma LateConclusion(s: State, v: State, w: State, t: Ticket, renewed: Schedule)
    requires t in s.tasks && InPhase(v, t, Observing) && v.tasks[t] == s.tasks[t]
    requires EndedWell(v, w, v.tasks[t].Instance())
    requires s.tasks[t].rec.deleteAfterRun && s.tasks[t].rec.kind == AtKind
    requires renewed.id in v.store.schedules && v.store.schedules[renewed.id].slug == s.tasks[t].rec.slug
    ensures Enabled(w, Conclude(t)) && renewed.id !in Then(w, Conclude(t)).store.schedules
  {
    hide Inv, Then;
    ConcludeDeletes(w, t, renewed.id);
  }

  lemma SuccessorSaved(s: State, t: Ticket, renewed: Schedule) returns (u: State, v: State)
    requires Inv(s) && InPhase(s, t, Observing)
    requires s.store.WithSlug(s.tasks[t].rec.slug) == {s.tasks[t].rec.id}
    requires renewed.slug == s.tasks[t].rec.slug && renewed.id !in s.known
    ensures Enabled(s, Delete(renewed.slug)) && u == Then(s, Delete(renewed.slug))
    ensures Inv(u) && Enabled(u, Save(renewed, true)) && v == Then(u, Save(renewed, true))
    ensures Inv(v) && InPhase(v, t, Observing) && v.tasks[t] == s.tasks[t]
    ensures v.outcomes == s.outcomes && v.pending == s.pending && v.shuttingDown == s.shuttingDown
    ensures renewed.id in v.store.schedules && v.store.schedules[renewed.id] == renewed
  {
    hide Inv, Next;
    u := Then(s, Delete(renewed.slug));
    DeleteSpares(s, t, renewed.slug);
    assert u.store.WithSlug(renewed.slug) == {};
    SaveSpares(u, t, renewed);
    v := Then(u, Save(renewed, true));
  }

  /** The attempt has ended well now. */
  ghost predicate EndedWell(s: State, w: State, i: Instance) {
    && Inv(w) && w.tasks == s.tasks && w.store == s.store && i in w.outcomes && w.outcomes[i] == OkOutcome
  }

  lemma DoAgentEnd(s: State, i: Instance)
    requires Inv(s) && i in s.pending && !s.shuttingDown
    ensures Enabled(s, AgentEnd(i))
    ensures Then(s, AgentEnd(i)) ==
      s.(pending := s.pending - {i}, observeTimers := s.observeTimers - {i}, outcomes := s.outcomes[i := s.Verdict(i)])
  {
    hide Inv;
  }

  lemma EndsWell(s: State, t: Ticket) returns (w: State)
    requires Inv(s) && InPhase(s, t, Observing) && MayEndWell(s, s.tasks[t].Instance())
    ensures var i := s.tasks[t].Instance();
      && EndedWell(s, w, i)
      && (if i in s.pending && !s.shuttingDown then Enabled(s, AgentEnd(i)) && w == Then(s, AgentEnd(i)) else w == s)
  {
    hide Inv, Then, Enabled;
    var i := s.tasks[t].Instance();
    FreshTicket(s);
    if i in s.pending && !s.shuttingDown {
      DoAgentEnd(s, i);
    }
    w := if i in s.pending && !s.shuttingDown then Then(s, AgentEnd(i)) else s;
  }

  lemma ConcludeDeletes(s: State, t: Ticket, id: Id)
    requires Inv(s) && InPhase(s, t, Observing) && s.tasks[t].Instance() in s.outcomes
    requires s.outcomes[s.tasks[t].Instance()] == OkOutcome
    requires s.tasks[t].rec.deleteAfterRun && s.tasks[t].rec.kind == AtKind
    requires id in s.store.schedules && s.store.schedules[id].slug == s.tasks[t].rec.slug
    ensures Enabled(s, Conclude(t)) && id !in Then(s, Conclude(t)).store.schedules
  {
    hide Inv;
  }

  lemma BeginLogs(s: State, t: Ticket)
    requires Inv(s) && InPhase(s, t, Slotted) && s.tasks[t].attempt > 0
    ensures s.tasks[t].Instance() in Then(s, Begin(t, true)).log
  {
    hide Inv;
  }

  /** Nothing carries the run, and its row, if it still exists, is as it was: queued. */
  ghost predicate Stuck(before: State, after: State, run: Id) {
    && !Carried(after.tasks, run)
    && (run in after.store.runs ==>
          run in before.store.runs && after.store.runs[run] == before.store.runs[run]
          && after.store.runs[run].status == Queued)
  }

  /** A retry timer that is armed for a schedule about to be paused. */
  ghost predicate AboutToPause(s: State, t: Ticket, paused: Schedule) {
    && InPhase(s, t, Backoff) && s.tasks[t].run in s.store.runs
    && paused.id == s.tasks[t].rec.id && !paused.enabled && CanSave(s, paused)
  }

  /** Pausing a schedule that has a retry timer armed leaves the run queued for
      good, whatever happens afterwards, unless the row itself is deleted. */
  lemma PausedRetryIsStuck(s: State, t: Ticket, paused: Schedule, v: State, es: seq<Event>)
    requires Inv(s) && AboutToPause(s, t, paused)
    requires Inv(v) && v == Sync(Saved(s, paused), paused, true) && CanRun(v, es)
    ensures Stuck(s, Run(v, es), s.tasks[t].run)
  {
    CarrierFacts(s, t);
    TimerFacts(s, t);
    PauseDrops(s, t, paused);
    hide Inv, CanSave, Sync, Saved, CanRun;
    AbandonedIsStuck(v, es, s.tasks[t].run);
  }

  lemma AbandonedIsStuck(s: State, es: seq<Event>, run: Id)
    requires Inv(s) && CanRun(s, es) && run in s.abandoned && run in s.store.runs
    ensures Stuck(s, Run(s, es), run)
  {
    AbandonedIsQueued(s, run);
    hide Inv, CanRun;
    OverIsForever(s, es, run);
  }

  lemma AbandonedIsQueued(s: State, run: Id)
    requires Inv(s) && run in s.abandoned
    ensures !Carried(s.tasks, run) && (run in s.store.runs ==> s.store.runs[run].status == Queued)
  {
  }

  lemma PauseDrops(s: State, t: Ticket, paused: Schedule)
    requires InPhase(s, t, Backoff) && t in TimersOf(s, s.tasks[t].rec.id)
    requires paused.id == s.tasks[t].rec.id && !paused.enabled
    ensures var v := Sync(Saved(s, paused), paused, true);
      v.store.runs == s.store.runs && s.tasks[t].run in v.abandoned
  {
  }
}
