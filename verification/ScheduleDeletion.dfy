/** Whether a schedule that has been deleted can still dispatch. */
module ScheduleDeletion {
  import opened Basics
  import opened ScheduleTypes
  import opened ScheduleGate
  import opened ScheduleState
  import opened ScheduleInvariant
  import opened ScheduleRuns
  import opened ScheduleConsequences
  import opened ScheduleWaiting

  /** A retry of the schedule that has passed its existence check but has not dispatched yet:
      it waits in the gate, or holds its slot. A stop turns the waiting ones away. */
  predicate PastTheCheck(s: State, sid: Id, t: Ticket) {
    && t in s.tasks && s.tasks[t].rec.id == sid && s.tasks[t].attempt > 0
    && (s.tasks[t].phase == Slotted || (s.tasks[t].phase == Gated && !s.shuttingDown))
  }

  /** The schedule existed once and does not exist now. */
  predicate Gone(s: State, sid: Id) {
    sid in s.known && sid !in s.store.schedules
  }

  /** Whatever was dispatched in between was not for this schedule. */
  ghost predicate OnlyOthers(before: seq<Instance>, after: seq<Instance>, sid: Id) {
    before <= after && forall k :: |before| <= k < |after| ==> after[k].sid != sid
  }

  /** The schedule stays gone, no further retry of it gets past the check, and nothing of it is dispatched. */
  ghost predicate Hushed(s: State, u: State, sid: Id) {
    && Gone(u, sid) && OnlyOthers(s.log, u.log, sid)
    && forall t :: PastTheCheck(u, sid, t) ==> PastTheCheck(s, sid, t)
  }

  // ---- One event ----

  lemma FireHushed(s: State, rec: Schedule, run: Id, sid: Id)
    requires Gone(s, sid)
    ensures Hushed(s, Fire(s, rec, run), sid)
  {
    hide Acquire;
  }

  lemma ResumeHushed(s: State, sid: Id)
    requires Gone(s, sid) && s.gate.woken != [] && InPhase(s, s.gate.woken[0], Gated)
    ensures Hushed(s, ResumeStep(s), sid)
  {
    hide Resume;
  }

  lemma EndHushed(s: State, t: Ticket, status: Status, error: Option<string>, sid: Id)
    requires Gone(s, sid) && t in s.tasks
    ensures Hushed(s, EndAttempt(s, t, status, error), sid)
  {
  }

  lemma HushedTrans(s: State, u: State, v: State, sid: Id)
    requires Hushed(s, u, sid) && Hushed(u, v, sid)
    ensures Hushed(s, v, sid)
  {
    forall k | |s.log| <= k < |v.log| ensures v.log[k].sid != sid {
      if k < |u.log| {
        assert v.log[k] == u.log[k];
      }
    }
  }

  lemma AttemptHushed(s: State, t: Ticket, sid: Id)
    requires Gone(s, sid) && t in s.tasks && s.tasks[t].rec.id != sid
    ensures Hushed(s, BeginAttempt(s, t), sid)
  {
  }

  lemma StartHushed(s: State, other: Id, run: Id, sid: Id)
    requires Gone(s, sid)
    ensures Hushed(s, RowStarted(s, other, run), sid) && RowStarted(s, other, run).tasks == s.tasks
  {
  }

  /** A first attempt cannot even start its row; a retry past the check is the only exception. */
  lemma BeginHushed(s: State, t: Ticket, ok: bool, sid: Id)
    requires Gone(s, sid) && InPhase(s, t, Slotted) && !PastTheCheck(s, sid, t)
    ensures Hushed(s, BeginStep(s, t, ok), sid)
  {
    var task := s.tasks[t];
    var u := RowStarted(s, task.rec.id, task.run);
    BeginStepIs(s, t, ok);
    StartHushed(s, task.rec.id, task.run, sid);
    PhaseHushed(s, t, Releasing, sid);
    assert task.rec.id == sid ==> task.attempt == 0 && !s.store.CanStart(task.rec.id, task.run);
    hide BeginStep, BeginAttempt, EndAttempt, Hushed, RowStarted;
    assert Gone(u, sid) by {
      GoneAfter(s, u, sid);
    }
    EndHushed(u, t, Skipped, Some("provider endpoint unavailable"), sid);
    HushedTrans(s, u, EndAttempt(u, t, Skipped, Some("provider endpoint unavailable")), sid);
    if task.rec.id != sid {
      AttemptHushed(s, t, sid);
      AttemptHushed(u, t, sid);
      HushedTrans(s, u, BeginAttempt(u, t), sid);
    }
  }

  lemma GoneAfter(s: State, u: State, sid: Id)
    requires Hushed(s, u, sid)
    ensures Gone(u, sid)
  {
  }

  lemma PhaseHushed(s: State, t: Ticket, phase: Phase, sid: Id)
    requires Gone(s, sid) && t in s.tasks && phase !in {Slotted, Gated}
    ensures Hushed(s, SetPhase(s, t, phase), sid)
  {
  }

  lemma AdmitHushed(s: State, t: Ticket, d: string, sid: Id)
    requires Gone(s, sid) && t in s.tasks
    ensures Hushed(s, AdmitStep(s, t, d), sid)
  {
  }

  lemma SettleHushed(s: State, i: Instance, o: Outcome, sid: Id)
    requires Gone(s, sid)
    ensures Hushed(s, Settle(s, i, o), sid) && Settle(s, i, o).tasks == s.tasks
    ensures Hushed(s, s, sid) && Hushed(s, TurnErrorStep(s, i, ""), sid)
  {
  }

  lemma TurnErrorHushed(s: State, i: Instance, m: string, sid: Id)
    requires Gone(s, sid)
    ensures Hushed(s, TurnErrorStep(s, i, m), sid)
  {
  }

  lemma RejectHushed(s: State, t: Ticket, reason: string, sid: Id)
    requires Gone(s, sid) && t in s.tasks
    ensures Hushed(s, RejectStep(s, t, reason), sid)
  {
    hide EndAttempt, Settle;
    var i := s.tasks[t].Instance();
    SettleHushed(s, i, TimeoutOutcome("cancelled"), sid);
    EndHushed(Settle(s, i, TimeoutOutcome("cancelled")), t, Failed, Some(reason), sid);
  }

  lemma ArmHushed(s: State, t: Ticket, sid: Id)
    requires Gone(s, sid) && t in s.tasks
    ensures Hushed(s, ArmRetry(s, t), sid)
  {
  }

  lemma ConcludeHushed(s: State, t: Ticket, o: Outcome, sid: Id)
    requires Gone(s, sid) && t in s.tasks
    ensures Hushed(s, ConcludeStep(s, t, o), sid)
  {
    hide EndAttempt, ArmRetry, Hushed, Retries;
    match o
    case OkOutcome => EndHushed(s, t, Succeeded, None, sid);
    case TimeoutOutcome(m) => EndHushed(s, t, TimedOut, Some(m), sid);
    case ErrorOutcome(m) =>
      ArmHushed(s, t, sid);
      EndHushed(s, t, if IsTransient(s.cfg.classify(m)) then Failed else Skipped, Some(m), sid);
  }

  lemma ReleaseHushed(s: State, t: Ticket, sid: Id)
    requires Gone(s, sid)
    ensures Hushed(s, ReleaseStep(s, t), sid)
  {
    hide Release;
  }

  lemma RetryHushed(s: State, t: Ticket, sid: Id)
    requires Gone(s, sid) && t in s.tasks
    ensures Hushed(s, RetryStep(s, t), sid)
  {
    hide Acquire, TimersOf, EnterGate;
    if !s.shuttingDown && s.tasks[t].rec.id in s.store.schedules {
      EnterHushed(s, TimerFired(s, t), t, sid);
    }
  }

  /** A retry that gets past the check is of a schedule that is still there. */
  lemma EnterHushed(s: State, u: State, t: Ticket, sid: Id)
    requires Gone(s, sid) && t in s.tasks && s.tasks[t].rec.id in s.store.schedules
    requires u == s.(retryTimers := u.retryTimers)
    ensures Hushed(s, EnterGate(u, t), sid)
  {
    hide Acquire;
  }

  lemma DeleteHushed(s: State, id: Id, sid: Id)
    requires Gone(s, sid)
    ensures Hushed(s, DeleteStep(s, id), sid)
  {
  }

  lemma SaveHushed(s: State, rec: Schedule, valid: bool, sid: Id)
    requires Gone(s, sid) && CanSave(s, rec)
    ensures Hushed(s, Sync(Saved(s, rec), rec, valid), sid)
  {
  }

  lemma StopHushed(s: State, sid: Id)
    requires Gone(s, sid)
    ensures Hushed(s, StopStep(s), sid)
  {
  }

  ghost predicate Silent(s: State, sid: Id) {
    Gone(s, sid) && forall t :: !PastTheCheck(s, sid, t)
  }

  lemma NextHushed(s: State, e: Event, sid: Id)
    requires Inv(s) && Enabled(s, e) && Silent(s, sid)
    ensures Hushed(s, Then(s, e), sid)
  {
    hide Fire, EndAttempt, BeginStep, AdmitStep, RejectStep, ConcludeStep, RetryStep, Settle, Sync, Saved, StopStep,
         ResumeStep, TimeoutStep, ReleaseStep, DeleteStep, TurnErrorStep, Hushed, TheId, Acquire, Release, Resume,
         GateLinked, RowsSound, TasksSound, RowsAgree, OpenRowsCarried, AbandonedSound, ObservationsSound,
         LogSound, LogBehind, TimersTracked, NoIdleSlot, GateInv;
    StoreUnique(s);
    match e
    case FireNow(slug, run) => FireHushed(s, s.store.schedules[TheId(s.store, slug)], run, sid);
    case CronTick(cid, run) => FireHushed(s, s.cron[cid], run, sid);
    case ResumeWaiter => GateWakes(s.gate, s.tasks, s.next); ResumeHushed(s, sid);
    case Begin(t, ok) => BeginHushed(s, t, ok, sid);
    case DispatchResolves(t, d) => AdmitHushed(s, t, d, sid);
    case DispatchRejects(t, reason) => RejectHushed(s, t, reason, sid);
    case TurnError(i, m) => TurnErrorHushed(s, i, m, sid); SettleHushed(s, i, OkOutcome, sid);
    case AgentEnd(i) => SettleHushed(s, i, if i in s.pending then s.Verdict(i) else OkOutcome, sid);
    case ObserveTimeout(i) => TimeoutSettles(s, i); SettleHushed(s, i, TimeoutOutcome("observe timeout"), sid);
    case Conclude(t) => ConcludeHushed(s, t, s.outcomes[s.tasks[t].Instance()], sid);
    case ReleaseSlot(t) => ReleaseHushed(s, t, sid);
    case RetryDue(t) => RetryHushed(s, t, sid);
    case Delete(slug) => DeleteHushed(s, TheId(s.store, slug), sid);
    case Save(rec, valid) => SaveHushed(s, rec, valid, sid);
    case Stop => StopHushed(s, sid);
  }

  /** Once a schedule is gone and none of its retries is past the check, nothing of it is ever dispatched again. */
  lemma {:induction false} SilentForGood(s: State, es: seq<Event>, sid: Id)
    requires Inv(s) && CanRun(s, es) && Silent(s, sid)
    ensures OnlyOthers(s.log, Run(s, es).log, sid) && Silent(Run(s, es), sid)
    decreases |es|
  {
    if es != [] {
      var u := Then(s, es[0]);
      NextHushed(s, es[0], sid);
      hide Inv, Then, Enabled, Gone, PastTheCheck;
      SilentForGood(u, es[1..], sid);
    }
  }

  // ---- A retry past the check can always still dispatch ----

  /** The run of the ticket goes on to dispatch. */
  ghost predicate LeadsToDispatch(s: State, t: Ticket, es: seq<Event>)
    requires Inv(s)
  {
    t in s.tasks && CanRun(s, es) && Orderly(s, es) && s.tasks[t].Instance() in Run(s, es).log
  }

  /** A retry that waits in the gate, or holds its slot, can still dispatch: let every slot
      holder before it finish, and everybody before it in the queue go in. */
  lemma RetryCanDispatch(s: State, t: Ticket) returns (es: seq<Event>)
    requires Inv(s) && s.cfg.maxConcurrentRuns >= 1 && t in s.tasks && PastTheCheck(s, s.tasks[t].rec.id, t)
    ensures LeadsToDispatch(s, t, es)
  {
    hide Inv, Then, CanRun, Orderly;
    var u := s;
    es := [];
    ReachesNone(s);
    if s.tasks[t].phase == Gated {
      es, u := GetsSlot(s, t);
    }
    BeginLogs(u, t);
    ReachesMore(s, es, u, Begin(t, true));
    es := es + [Begin(t, true)];
  }

  // ---- Exactly when a deleted schedule dispatches ----

  ghost predicate NewDispatch(s: State, es: seq<Event>, sid: Id)
    requires Inv(s) && CanRun(s, es)
  {
    exists i :: i in Run(s, es).log && i !in s.log && i.sid == sid
  }

  ghost predicate MayDispatch(s: State, sid: Id)
    requires Inv(s)
  {
    exists es :: CanRun(s, es) && NewDispatch(s, es, sid)
  }

  lemma NotLoggedYet(s: State, t: Ticket)
    requires Inv(s) && t in s.tasks && s.tasks[t].phase in {Gated, Slotted}
    ensures s.tasks[t].Instance() !in s.log
  {
    CarrierFacts(s, t);
  }

  lemma SilentDispatchesNothing(s: State, es: seq<Event>, sid: Id)
    requires Inv(s) && CanRun(s, es) && Silent(s, sid)
    ensures !NewDispatch(s, es, sid)
  {
    SilentForGood(s, es, sid);
    hide Inv, CanRun, Silent;
    var after := Run(s, es).log;
    forall i | i in after && i !in s.log ensures i.sid != sid {
      var k :| 0 <= k < |after| && after[k] == i;
      assert forall j :: 0 <= j < |s.log| ==> s.log[j] == after[j];
    }
  }

  /** Something can still be dispatched for a schedule that no longer exists if and only if one
      of its retries is past the check. Nothing else can bring it about: no attempt that is
      running, no armed timer, no cron job, no first attempt, no later save. */
  lemma DispatchAfterDelete(s: State, sid: Id)
    requires Inv(s) && Gone(s, sid) && s.cfg.maxConcurrentRuns >= 1
    ensures MayDispatch(s, sid) <==> exists t :: PastTheCheck(s, sid, t)
  {
    if MayDispatch(s, sid) {
      var es :| CanRun(s, es) && NewDispatch(s, es, sid);
      if Silent(s, sid) {
        SilentDispatchesNothing(s, es, sid);
      }
    }
    if t :| PastTheCheck(s, sid, t) {
      NotLoggedYet(s, t);
      hide Inv;
      var es := RetryCanDispatch(s, t);
      assert NewDispatch(s, es, sid);
    }
  }

  /** So a caller can tell before deleting: the delete ends all dispatches of the schedule if
      and only if none of its retries waits in the gate or holds a slot. */
  lemma DeleteEndsDispatchesIff(s: State, slug: string, u: State, id: Id)
    requires Inv(s) && s.store.WithSlug(slug) == {id} && s.cfg.maxConcurrentRuns >= 1
    requires u == DeleteStep(s, id)
    ensures Enabled(s, Delete(slug)) && u == Then(s, Delete(slug)) && Gone(u, id)
    ensures MayDispatch(u, id) <==> exists t :: PastTheCheck(s, id, t)
  {
    hide DeleteStep;
    KnownIds(s);
    assert id in s.store.WithSlug(slug);
    var found := ThenDelete(s, slug);
    assert found in {id};
    DeletedIsGone(s, id);
    hide Inv, Then, MayDispatch;
    DispatchAfterDelete(u, id);
  }

  lemma KnownIds(s: State)
    requires Inv(s)
    ensures s.store.schedules.Keys <= s.known
  {
  }

  lemma DeletedIsGone(s: State, id: Id)
    requires Inv(s) && id in s.known
    ensures var u := DeleteStep(s, id);
      Gone(u, id) && u.cfg == s.cfg && forall t :: PastTheCheck(u, id, t) <==> PastTheCheck(s, id, t)
  {
    TimersAreBackoff(s, id);
    hide Inv, TimersOf;
  }

  lemma TimersAreBackoff(s: State, id: Id)
    requires Inv(s)
    ensures forall t :: t in TimersOf(s, id) ==> InPhase(s, t, Backoff)
  {
    forall t | t in TimersOf(s, id) ensures InPhase(s, t, Backoff) {
      TrackedIsBackoff(s, id, t);
    }
  }

  /** The run of events in which it happens, from any state with such a retry. */
  lemma DeletedRetryDispatches(s: State, t: Ticket, slug: string, u: State) returns (es: seq<Event>)
    requires Inv(s) && s.cfg.maxConcurrentRuns >= 1
    requires t in s.tasks && PastTheCheck(s, s.tasks[t].rec.id, t) && s.store.WithSlug(slug) == {s.tasks[t].rec.id}
    requires u == DeleteStep(s, s.tasks[t].rec.id)
    ensures Enabled(s, Delete(slug)) && u == Then(s, Delete(slug)) && s.tasks[t].rec.id !in u.store.schedules
    ensures t in u.tasks && u.tasks[t] == s.tasks[t] && LeadsToDispatch(u, t, es)
  {
    hide DeleteStep;
    var id := s.tasks[t].rec.id;
    DeleteEndsDispatchesIff(s, slug, u, id);
    DeletedKeepsTask(s, id, t);
    hide Inv, Then, MayDispatch;
    es := RetryCanDispatch(u, t);
  }

  lemma DeletedKeepsTask(s: State, id: Id, t: Ticket)
    requires Inv(s) && id in s.known && t in s.tasks && s.tasks[t].phase != Backoff
    ensures var u := DeleteStep(s, id);
      t in u.tasks && u.tasks[t] == s.tasks[t] && u.cfg == s.cfg && u.shuttingDown == s.shuttingDown
  {
    TimersAreBackoff(s, id);
    hide Inv, TimersOf;
  }
}
