/**
 The concurrency gate of the schedule manager: a slot counter and a first-in
 first-out queue of suspended callers. A release resolves the promise of the
 queue's head; that caller counts itself in only when it runs again, so other
 callers can slip in between. Promise continuations run in the order in which
 their promises were resolved, so `woken` is a sequence.
 */
module ScheduleGate {
  import opened Basics

  type Ticket = nat

  datatype Gate = Gate(
    inFlight: int,
    queue: seq<Ticket>,      // suspended in the gate
    woken: seq<Ticket>,      // resolved by a release, not yet running again
    holders: set<Ticket>,    // history: who counted itself in and has not released
    arrivals: seq<Ticket>,   // history: everyone who had to wait, in order of arrival
    served: seq<Ticket>)     // history: everyone who ran again after waiting, in order

  const EMPTY_GATE := Gate(0, [], [], {}, [], [])

  function Acquire(g: Gate, max: nat, t: Ticket): Gate {
    if g.inFlight >= max then
      g.(queue := g.queue + [t], arrivals := g.arrivals + [t])
    else
      g.(inFlight := g.inFlight + 1, holders := g.holders + {t})
  }

  function Release(g: Gate, t: Ticket): Gate {
    var h := g.(inFlight := g.inFlight - 1, holders := g.holders - {t});
    if h.queue == [] then h else h.(queue := h.queue[1..], woken := h.woken + [h.queue[0]])
  }

  /** The head of `woken` runs again; it counts itself in unless shutdown interrupted it. */
  function Resume(g: Gate, shuttingDown: bool): Gate
    requires g.woken != []
  {
    var h := g.(woken := g.woken[1..], served := g.served + [g.woken[0]]);
    if shuttingDown then h
    else h.(inFlight := h.inFlight + 1, holders := h.holders + {g.woken[0]})
  }

  // ---- Invariant ----

  /** Slots in use or already promised to a woken caller. */
  function Committed(g: Gate): int {
    g.inFlight + |g.woken|
  }

  ghost predicate GateInv(g: Gate) {
    && g.inFlight == |g.holders|
    && g.arrivals == g.served + g.woken + g.queue
    && NoDup(g.arrivals)
    && (forall t :: t in g.holders ==> t !in g.woken && t !in g.queue)
  }

  /** No slot stays idle while somebody waits. */
  ghost predicate NoIdleSlot(g: Gate, max: nat) {
    g.queue != [] ==> Committed(g) >= max
  }

  lemma AcquireKeeps(g: Gate, max: nat, t: Ticket)
    requires GateInv(g) && t !in g.arrivals && t !in g.holders
    ensures var h := Acquire(g, max, t); GateInv(h) && (NoIdleSlot(g, max) ==> NoIdleSlot(h, max))
  {
    var h := Acquire(g, max, t);
    assert forall x :: x in g.woken || x in g.queue ==> x in g.arrivals;
    if g.inFlight >= max {
      assert h.arrivals == h.served + h.woken + h.queue;
    }
  }

  lemma ReleaseKeeps(g: Gate, max: nat, t: Ticket)
    requires GateInv(g) && t in g.holders
    ensures var h := Release(g, t); GateInv(h) && (NoIdleSlot(g, max) ==> NoIdleSlot(h, max))
  {
    var h := Release(g, t);
    if g.queue != [] {
      assert g.queue == [g.queue[0]] + g.queue[1..];
      assert h.arrivals == h.served + h.woken + h.queue;
    }
  }

  lemma ResumeKeeps(g: Gate, max: nat, shuttingDown: bool)
    requires GateInv(g) && g.woken != []
    ensures var h := Resume(g, shuttingDown);
            GateInv(h) && (!shuttingDown && NoIdleSlot(g, max) ==> NoIdleSlot(h, max))
  {
    var h := Resume(g, shuttingDown);
    var t := g.woken[0];
    assert g.woken == [t] + g.woken[1..];
    assert h.arrivals == h.served + h.woken + h.queue;
    var k := |g.served|;
    assert g.arrivals[k] == t;
    forall x | x in h.woken || x in h.queue ensures x != t && x in g.arrivals {
      var rest := h.woken + h.queue;
      assert x in rest;
      var i :| 0 <= i < |rest| && rest[i] == x;
      assert g.arrivals[k + 1 + i] == x;
    }
    assert t in g.woken && t !in g.holders;
  }

  /** A newcomer takes a free slot although every slot is in use or promised. */
  predicate Overtaken(g: Gate, max: nat) {
    g.inFlight < max <= Committed(g)
  }

  /** With one slot: 1 runs, 2 waits, 1 releases, 3 slips in, 2 runs again. Two run at once. */
  lemma OvertakingExample()
    ensures var g := Release(Acquire(Acquire(EMPTY_GATE, 1, 1), 1, 2), 1);
      && g.woken == [2] && Overtaken(g, 1)
      && Resume(Acquire(g, 1, 3), false).inFlight == 2
  {
  }
}
