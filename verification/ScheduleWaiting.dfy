/** Who waits for a slot will get one, unless the manager stops. */
module ScheduleWaiting {
  import opened Basics
  import opened ScheduleTypes
  import opened ScheduleGate
  import opened ScheduleState
  import opened ScheduleInvariant
  import opened ScheduleRuns
  import opened ScheduleConsequences

  // ---- While the manager runs, every waiting call can get its slot ----

  function PlaceIn(line: seq<Ticket>, t: Ticket): (n: nat)
    ensures t !in line ==> n == 0
    ensures t in line ==> 0 < n <= |line| && line[n - 1] == t
  {
    if t !in line then 0 else if line[0] == t then 1 else 1 + PlaceIn(line[1..], t)
  }

  /** How many callers, itself included, have to be let in until the ticket is. */
  function Place(s: State, t: Ticket): nat {
    PlaceIn(s.gate.woken + s.gate.queue, t)
  }

  lemma NextInLine(line: seq<Ticket>, t: Ticket)
    requires t in line && line[0] != t
    ensures t in line[1..] && PlaceIn(line[1..], t) == PlaceIn(line, t) - 1
  {
    assert line == [line[0]] + line[1..];
  }

  /** The event leaves the waiting ticket, its place and the running of the manager as they are. */
  ghost predicate Spares(s: State, u: State, t: Ticket) {
    && t in s.tasks && t in u.tasks && u.tasks[t] == s.tasks[t]
    && u.gate == s.gate && u.cfg == s.cfg && u.shuttingDown == s.shuttingDown
  }

  lemma EndSpares(s: State, h: Ticket, t: Ticket, status: Status, error: Option<string>)
    requires h in s.tasks && t in s.tasks && t != h
    ensures var u := EndAttempt(s, h, status, error); Spares(s, u, t) && InPhase(u, h, Releasing)
  {
  }

  lemma RowStartedSpares(s: State, h: Ticket, t: Ticket)
    requires h in s.tasks && t in s.tasks
    ensures var v := RowStarted(s, s.tasks[h].rec.id, s.tasks[h].run); Spares(s, v, t) && v.tasks == s.tasks
  {
  }

  lemma AttemptSpares(s: State, h: Ticket, t: Ticket)
    requires h in s.tasks && t in s.tasks && t != h
    ensures Spares(s, BeginAttempt(s, h), t) && InPhase(BeginAttempt(s, h), h, Dispatching)
    ensures Spares(s, SetPhase(s, h, Releasing), t) && InPhase(SetPhase(s, h, Releasing), h, Releasing)
  {
  }

  lemma BeginSpares(s: State, h: Ticket, t: Ticket)
    requires h in s.tasks && t in s.tasks && t != h
    ensures var u := BeginStep(s, h, true);
      Spares(s, u, t) && (InPhase(u, h, Releasing) || InPhase(u, h, Dispatching))
  {
    hide EndAttempt, RowStarted, BeginStep, BeginAttempt, InPhase;
    BeginStepIs(s, h, true);
    RowStartedSpares(s, h, t);
    AttemptSpares(s, h, t);
    AttemptSpares(RowStarted(s, s.tasks[h].rec.id, s.tasks[h].run), h, t);
  }

  lemma RejectSpares(s: State, h: Ticket, t: Ticket)
    requires h in s.tasks && t in s.tasks && t != h
    ensures var u := RejectStep(s, h, ""); Spares(s, u, t) && InPhase(u, h, Releasing)
  {
    hide EndAttempt, Settle;
    var v := Settle(s, s.tasks[h].Instance(), TimeoutOutcome("cancelled"));
    SettleSpares(s, s.tasks[h].Instance(), TimeoutOutcome("cancelled"), t);
    EndSpares(v, h, t, Failed, Some(""));
  }

  lemma SettleSpares(s: State, i: Instance, o: Outcome, t: Ticket)
    requires t in s.tasks
    ensures Spares(s, Settle(s, i, o), t) && Settle(s, i, o).tasks == s.tasks
    ensures i in s.pending ==> i in Settle(s, i, o).outcomes
  {
  }

  lemma ArmSpares(s: State, h: Ticket, t: Ticket)
    requires h in s.tasks && t in s.tasks && t != h && s.next !in s.tasks
    ensures var u := ArmRetry(s, h); Spares(s, u, t) && InPhase(u, h, Releasing)
  {
  }

  lemma ConcludeSpares(s: State, h: Ticket, t: Ticket, o: Outcome)
    requires h in s.tasks && t in s.tasks && t != h && s.next !in s.tasks
    ensures var u := ConcludeStep(s, h, o); Spares(s, u, t) && InPhase(u, h, Releasing)
  {
    hide EndAttempt, ArmRetry, Retries, Spares;
    match o
    case OkOutcome => EndSpares(s, h, t, Succeeded, None);
    case TimeoutOutcome(m) => EndSpares(s, h, t, TimedOut, Some(m));
    case ErrorOutcome(m) =>
      ArmSpares(s, h, t);
      EndSpares(s, h, t, if IsTransient(s.cfg.classify(m)) then Failed else Skipped, Some(m));
  }

  /** A slot holder that is not done yet can always take a step on its own. */
  function Progress(s: State, h: Ticket): Event
    requires h in s.tasks
  {
    match s.tasks[h].phase
    case Slotted => Begin(h, true)
    case Dispatching => DispatchRejects(h, "")
    case Observing =>
      if s.tasks[h].Instance() in s.outcomes then Conclude(h) else AgentEnd(s.tasks[h].Instance())
    case _ => ReleaseSlot(h)
  }

  /** The steps it has left until it gives its slot back. */
  function StepsLeft(s: State, h: Ticket): nat
    requires h in s.tasks
  {
    match s.tasks[h].phase
    case Slotted => 4
    case Dispatching => 3
    case Observing => if s.tasks[h].Instance() in s.outcomes then 1 else 2
    case _ => 0
  }

  /** The step itself, without the dispatch over all events. */
  function ProgressStep(s: State, h: Ticket): State
    requires h in s.tasks
  {
    match s.tasks[h].phase
    case Slotted => BeginStep(s, h, true)
    case Dispatching => RejectStep(s, h, "")
    case Observing =>
      var i := s.tasks[h].Instance();
      if i in s.outcomes then ConcludeStep(s, h, s.outcomes[i])
      else if i in s.pending then Settle(s, i, s.Verdict(i))
      else s
    case _ => ReleaseStep(s, h)
  }

  lemma ThenProgress(s: State, h: Ticket)
    requires Inv(s) && h in s.tasks && s.tasks[h].HoldsSlot() && Enabled(s, Progress(s, h))
    ensures Then(s, Progress(s, h)) == ProgressStep(s, h)
  {
    hide Inv, BeginStep, RejectStep, ConcludeStep, Settle, ReleaseStep, Spares;
    StoreUnique(s);
  }

  lemma ProgressEnabled(s: State, h: Ticket)
    requires Inv(s) && h in s.tasks && s.tasks[h].HoldsSlot() && !s.shuttingDown
    ensures Enabled(s, Progress(s, h)) && InOrder(s, Progress(s, h))
  {
    hide Inv;
    if s.tasks[h].phase == Observing {
      Watched(s, h);
    }
  }

  lemma ProgressSpares(s: State, h: Ticket, t: Ticket)
    requires h in s.tasks && s.tasks[h].HoldsSlot() && s.tasks[h].phase != Releasing
    requires t in s.tasks && t != h && s.next !in s.tasks
    requires var i := s.tasks[h].Instance(); s.tasks[h].phase == Observing ==> i in s.outcomes || i in s.pending
    ensures var u := ProgressStep(s, h);
      Spares(s, u, t) && h in u.tasks && u.tasks[h].HoldsSlot() && StepsLeft(u, h) < StepsLeft(s, h)
  {
    hide BeginStep, RejectStep, ConcludeStep, Settle, ReleaseStep;
    match s.tasks[h].phase
    case Slotted => BeginSpares(s, h, t);
    case Dispatching => RejectSpares(s, h, t);
    case Observing =>
      var i := s.tasks[h].Instance();
      if i in s.outcomes {
        ConcludeSpares(s, h, t, s.outcomes[i]);
      } else {
        SettleSpares(s, i, s.Verdict(i), t);
      }
  }

  lemma Watched(s: State, h: Ticket)
    requires Inv(s) && InPhase(s, h, Observing)
    ensures s.tasks[h].Instance() in s.outcomes || s.tasks[h].Instance() in s.pending
  {
  }

  /** A release wakes the head of the queue. */
  lemma ReleaseMovesUp(s: State, h: Ticket, t: Ticket)
    requires h in s.tasks && t in s.tasks && t != h && s.gate.woken == [] && s.gate.queue != []
    ensures var u := ReleaseStep(s, h);
      && t in u.tasks && u.tasks[t] == s.tasks[t] && u.cfg == s.cfg && u.shuttingDown == s.shuttingDown
      && u.gate.woken != [] && u.gate.woken + u.gate.queue == s.gate.queue
  {
    assert s.gate.queue == [s.gate.queue[0]] + s.gate.queue[1..];
  }

  lemma GatedIsInLine(s: State, t: Ticket)
    requires Inv(s) && InPhase(s, t, Gated)
    ensures t in s.gate.woken + s.gate.queue
    ensures s.gate.woken == [] ==> s.gate.queue != []
  {
  }

  /** The woken caller is let in, and everybody behind it moves up. */
  lemma ResumeMovesUp(s: State, t: Ticket)
    requires s.gate.woken != [] && s.gate.woken[0] in s.tasks && !s.shuttingDown
    requires InPhase(s, t, Gated) && t in s.gate.woken + s.gate.queue
    ensures var u := ResumeStep(s);
      && u.cfg == s.cfg && !u.shuttingDown && t in u.tasks && u.tasks[t].(phase := Gated) == s.tasks[t]
      && (if s.gate.woken[0] == t then InPhase(u, t, Slotted) else InPhase(u, t, Gated) && Place(u, t) < Place(s, t))
  {
    var line := s.gate.woken + s.gate.queue;
    assert line[0] == s.gate.woken[0] && line[1..] == s.gate.woken[1..] + s.gate.queue;
    if s.gate.woken[0] != t {
      NextInLine(line, t);
    }
    hide PlaceIn;
  }

  lemma ThenResume(s: State)
    requires Inv(s) && s.gate.woken != []
    ensures Enabled(s, ResumeWaiter) && s.gate.woken[0] in s.tasks && Then(s, ResumeWaiter) == ResumeStep(s)
  {
    hide Inv, ResumeStep;
    WokenWaits(s);
    StoreUnique(s);
  }

  lemma WokenWaits(s: State)
    requires Inv(s) && s.gate.woken != []
    ensures s.gate.woken[0] in s.tasks
  {
    GateWakes(s.gate, s.tasks, s.next);
  }

  lemma SomeHolder(s: State, t: Ticket) returns (h: Ticket)
    requires Inv(s) && s.cfg.maxConcurrentRuns >= 1 && InPhase(s, t, Gated) && !s.shuttingDown && s.gate.woken == []
    ensures h in s.tasks && s.tasks[h].HoldsSlot() && h != t
  {
    GatedIsInLine(s, t);
    NobodyStranded(s);
    h :| h in s.tasks && s.tasks[h].HoldsSlot();
  }

  /** The holder `h` has taken a step: the waiting ticket is no further back, and the holder
      nearer its end, or has woken the head of the queue. */
  ghost predicate Nearer(s: State, u: State, h: Ticket, t: Ticket)
    requires h in s.tasks
  {
    && t in s.tasks && t in u.tasks && u.tasks[t] == s.tasks[t] && u.cfg == s.cfg && u.shuttingDown == s.shuttingDown
    && if s.tasks[h].phase == Releasing then
         u.gate.woken != [] && u.gate.woken + u.gate.queue == s.gate.woken + s.gate.queue
       else
         && u.gate == s.gate && h in u.tasks && u.tasks[h].HoldsSlot() && StepsLeft(u, h) < StepsLeft(s, h)
  }

  lemma ProgressNears(s: State, h: Ticket, t: Ticket)
    requires Inv(s) && InPhase(s, t, Gated) && s.gate.woken == []
    requires h in s.tasks && s.tasks[h].HoldsSlot() && h != t && !s.shuttingDown
    ensures Enabled(s, Progress(s, h)) && InOrder(s, Progress(s, h)) && Nearer(s, Then(s, Progress(s, h)), h, t)
  {
    hide Inv, BeginStep, RejectStep, ConcludeStep, Settle, ReleaseStep, Then, StepsLeft, Enabled, InOrder;
    ProgressEnabled(s, h);
    ThenProgress(s, h);
    FreshTicket(s);
    GatedIsInLine(s, t);
    if s.tasks[h].phase == Releasing {
      ReleaseMovesUp(s, h, t);
    } else {
      if s.tasks[h].phase == Observing {
        Watched(s, h);
      }
      ProgressSpares(s, h, t);
    }
  }

  ghost predicate GivenSlot(s: State, t: Ticket, es: seq<Event>, u: State) {
    && Reaches(s, es, u) && t in s.tasks && InPhase(u, t, Slotted) && u.tasks[t].(phase := Gated) == s.tasks[t]
  }

  lemma Prepend(s: State, e: Event, es: seq<Event>, u: State, t: Ticket) returns (all: seq<Event>)
    requires Inv(s) && Enabled(s, e) && InOrder(s, e) && GivenSlot(Then(s, e), t, es, u)
    requires t in s.tasks && Then(s, e).tasks[t] == s.tasks[t]
    ensures GivenSlot(s, t, all, u)
  {
    hide Inv, Then, Enabled, InOrder, Reaches;
    all := [e] + es;
    ReachesFirst(s, e, es, u);
  }

  /** Every slot holder before it finishes, and everybody before it in the line goes in. */
  lemma {:induction false} GetsSlot(s: State, t: Ticket) returns (es: seq<Event>, u: State)
    requires Inv(s) && s.cfg.maxConcurrentRuns >= 1 && InPhase(s, t, Gated) && !s.shuttingDown
    ensures GivenSlot(s, t, es, u)
    decreases Place(s, t), 10
  {
    if s.gate.woken != [] {
      es, u := LetIn(s, t);
    } else {
      var h := SomeHolder(s, t);
      es, u := Finish(s, h, t);
    }
  }

  lemma {:induction false} LetIn(s: State, t: Ticket) returns (es: seq<Event>, u: State)
    requires Inv(s) && s.cfg.maxConcurrentRuns >= 1 && InPhase(s, t, Gated) && !s.shuttingDown && s.gate.woken != []
    ensures GivenSlot(s, t, es, u)
    decreases Place(s, t), 0
  {
    hide Inv, Then, ResumeStep, Place, Reaches, Enabled, Quiet;
    GatedIsInLine(s, t);
    ThenResume(s);
    ResumeMovesUp(s, t);
    var v := Then(s, ResumeWaiter);
    if s.gate.woken[0] == t {
      ReachesNone(v);
      ReachesFirst(s, ResumeWaiter, [], v);
      es, u := [ResumeWaiter] + [], v;
    } else {
      es, u := GetsSlot(v, t);
      es := Prepend(s, ResumeWaiter, es, u, t);
    }
  }

  lemma {:induction false} Finish(s: State, h: Ticket, t: Ticket) returns (es: seq<Event>, u: State)
    requires Inv(s) && s.cfg.maxConcurrentRuns >= 1 && InPhase(s, t, Gated) && !s.shuttingDown
    requires s.gate.woken == [] && h in s.tasks && s.tasks[h].HoldsSlot() && h != t
    ensures GivenSlot(s, t, es, u)
    decreases Place(s, t), 1 + StepsLeft(s, h)
  {
    hide Inv, Then, StepsLeft, PlaceIn, Enabled, InOrder, GivenSlot;
    ProgressNears(s, h, t);
    var v := Then(s, Progress(s, h));
    if s.tasks[h].phase == Releasing {
      es, u := LetIn(v, t);
    } else {
      es, u := Finish(v, h, t);
    }
    es := Prepend(s, Progress(s, h), es, u, t);
  }
}
