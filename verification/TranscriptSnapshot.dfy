/** Reading the event stream of a session up to a snapshot. */
module TranscriptSnapshot {
  import opened TranscriptCorrelation

  const EVENT_STREAM_READ_LIMIT: nat := 1000

  /** Offsets rise strictly along a stream. */
  ghost predicate Rising(log: seq<Event>) {
    forall i, j :: 0 <= i < j < |log| ==> log[i].offset < log[j].offset
  }

  /** How many events lie at or before an offset. */
  function UpTo(log: seq<Event>, offset: int): (n: nat)
    ensures n <= |log|
  {
    if log == [] then 0
    else if log[|log| - 1].offset <= offset then |log|
    else UpTo(log[..|log| - 1], offset)
  }

  lemma {:induction false} UpToSplits(log: seq<Event>, offset: int)
    requires Rising(log)
    ensures var n := UpTo(log, offset);
      && (forall i :: 0 <= i < n ==> log[i].offset <= offset)
      && (forall i :: n <= i < |log| ==> log[i].offset > offset)
  {
    if log != [] && log[|log| - 1].offset > offset {
      UpToSplits(log[..|log| - 1], offset);
    }
  }

  lemma UpToIs(log: seq<Event>, offset: int, n: nat)
    requires Rising(log) && n <= |log|
    requires forall i :: 0 <= i < n ==> log[i].offset <= offset
    requires forall i :: n <= i < |log| ==> log[i].offset > offset
    ensures UpTo(log, offset) == n
  {
    UpToSplits(log, offset);
    var m := UpTo(log, offset);
    if m < |log| {
      assert log[m].offset > offset;
    }
    if n < |log| {
      assert log[n].offset > offset;
    }
  }

  /** Only the first event of each identity counts. */
  function Sanitized(events: seq<Event>): (r: seq<Event>)
    ensures forall e :: e in r ==> e in events
  {
    if events == [] then []
    else
      var front, last := events[..|events| - 1], events[|events| - 1];
      if last.identity in Identities(front) then Sanitized(front)
      else Sanitized(front) + [last]
  }

  function Identities(events: seq<Event>): set<string> {
    set i | 0 <= i < |events| :: events[i].identity
  }

  datatype StreamPage = StreamPage(events: seq<Event>, nextOffset: int, upToDate: bool)

  /** What a stream store promises about one read. */
  function ReadEvents(log: seq<Event>, offset: int, limit: nat): StreamPage {
    var from := UpTo(log, offset);
    var to := if from + limit <= |log| then from + limit else |log|;
    StreamPage(log[from..to], if from < to then log[to - 1].offset else offset, to == |log|)
  }

  function SnapshotOf(log: seq<Event>, start: int, snapshot: int): seq<Event> {
    var from, to := UpTo(log, start), UpTo(log, snapshot);
    if from <= to then Sanitized(log[from..to]) else []
  }

  function NotAfter(events: seq<Event>, snapshot: int): seq<Event> {
    if events == [] then []
    else NotAfter(events[..|events| - 1], snapshot)
         + if events[|events| - 1].offset <= snapshot then [events[|events| - 1]] else []
  }

  lemma {:induction false} NotAfterIsPrefix(log: seq<Event>, snapshot: int, at: nat, next: nat)
    requires Rising(log) && at <= next <= |log| && at <= UpTo(log, snapshot)
    ensures var to := UpTo(log, snapshot); NotAfter(log[at..next], snapshot) == log[at..if next <= to then next else to]
    decreases next
  {
    UpToSplits(log, snapshot);
    if at < next {
      NotAfterIsPrefix(log, snapshot, at, next - 1);
      assert log[at..next][..next - at - 1] == log[at..next - 1];
    }
  }

  /** Append what has not been seen before. */
  method SanitizeInto(page: seq<Event>, events: seq<Event>, seen: set<string>, ghost before: seq<Event>)
    returns (sanitized: seq<Event>, nowSeen: set<string>)
    requires events == Sanitized(before) && seen == Identities(before)
    ensures sanitized == Sanitized(before + page) && nowSeen == Identities(before + page)
  {
    hide *;
    sanitized, nowSeen := events, seen;
    assert before + page[..0] == before;
    for i := 0 to |page|
      invariant sanitized == Sanitized(before + page[..i]) && nowSeen == Identities(before + page[..i])
    {
      SanitizedNext(before, page, i);
      if page[i].identity !in nowSeen {
        nowSeen := nowSeen + {page[i].identity};
        sanitized := sanitized + [page[i]];
      }
    }
    assert page[..|page|] == page;
  }

  lemma SanitizedNext(before: seq<Event>, page: seq<Event>, i: nat)
    requires i < |page|
    ensures var events, later, e := before + page[..i], before + page[..i + 1], page[i];
      && Identities(later) == Identities(events) + {e.identity}
      && Sanitized(later) == if e.identity in Identities(events) then Sanitized(events) else Sanitized(events) + [e]
  {
    var events, e := before + page[..i], page[i];
    assert before + page[..i + 1] == events + [e];
    SanitizedAppend(events, e);
  }

  lemma SanitizedAppend(events: seq<Event>, e: Event)
    ensures Identities(events + [e]) == Identities(events) + {e.identity}
    ensures Sanitized(events + [e]) ==
            if e.identity in Identities(events) then Sanitized(events) else Sanitized(events) + [e]
  {
    var all := events + [e];
    assert all[..|all| - 1] == events && all[|all| - 1] == e;
    forall i | 0 <= i < |events| ensures events[i].identity in Identities(all) {
      assert all[i] == events[i];
    }
    assert e.identity in Identities(all) by {
      assert all[|events|].identity == e.identity;
    }
  }

  /** Everything after the start up to the snapshot, duplicates dropped; with a store that
      keeps its promise no read fails to advance or ends early, even while the stream grows. */
  method ReadTranscriptSnapshot(log: seq<Event>, start: int, snapshot: int) returns (r: seq<Event>)
    requires Rising(log) && (start < snapshot ==> exists i :: 0 <= i < |log| && log[i].offset == snapshot)
    ensures r == SnapshotOf(log, start, snapshot)
  {
    hide *;
    UpToOrder(log, start, snapshot);
    if start >= snapshot {
      return [];
    }
    ghost var from, to := UpTo(log, start), UpTo(log, snapshot);
    var events, seen: set<string> := [], {};
    var offset := start;
    NothingRead(log, from);
    while offset < snapshot
      invariant from <= UpTo(log, offset) <= to && offset < snapshot
      invariant events == Sanitized(log[from..UpTo(log, offset)])
      invariant seen == Identities(log[from..UpTo(log, offset)])
      decreases snapshot - offset
    {
      ghost var at := UpTo(log, offset);
      var page := ReadEvents(log, offset, EVENT_STREAM_READ_LIMIT);
      ReadMovesOn(log, offset, snapshot);
      KeepsRest(log, snapshot, from, at, at + |page.events|);
      events, seen := SanitizeInto(NotAfter(page.events, snapshot), events, seen, log[from..at]);
      if page.nextOffset >= snapshot {
        SnapshotIs(log, start, snapshot);
        return events;
      }
      assert page.nextOffset != offset && !page.upToDate;
      offset := page.nextOffset;
    }
    return events;
  }

  lemma NothingRead(log: seq<Event>, from: nat)
    requires from <= |log|
    ensures Sanitized(log[from..from]) == [] && Identities(log[from..from]) == {}
  {
  }

  lemma SnapshotIs(log: seq<Event>, start: int, snapshot: int)
    requires UpTo(log, start) <= UpTo(log, snapshot)
    ensures SnapshotOf(log, start, snapshot) == Sanitized(log[UpTo(log, start)..UpTo(log, snapshot)])
  {
  }

  lemma KeepsRest(log: seq<Event>, snapshot: int, from: nat, at: nat, next: nat)
    requires Rising(log) && from <= at <= next <= |log| && at <= UpTo(log, snapshot)
    ensures var to := UpTo(log, snapshot);
      log[from..at] + NotAfter(log[at..next], snapshot) == log[from..if next <= to then next else to]
  {
    NotAfterIsPrefix(log, snapshot, at, next);
  }

  lemma UpToOrder(log: seq<Event>, start: int, snapshot: int)
    requires Rising(log)
    ensures start >= snapshot ==> SnapshotOf(log, start, snapshot) == []
    ensures start <= snapshot ==> UpTo(log, start) <= UpTo(log, snapshot)
  {
    UpToSplits(log, start);
    UpToSplits(log, snapshot);
    var from, to := UpTo(log, start), UpTo(log, snapshot);
    if from < to {
      assert log[from].offset > start;
    }
    if from == to {
      assert log[from..to] == [];
    }
    if to < from {
      assert log[to].offset > snapshot;
    }
  }

  lemma SnapshotIsLast(log: seq<Event>, offset: int, snapshot: int)
    requires Rising(log) && offset < snapshot && exists i :: 0 <= i < |log| && log[i].offset == snapshot
    ensures var at, to := UpTo(log, offset), UpTo(log, snapshot);
      at < to && log[to - 1].offset == snapshot
  {
    UpToSplits(log, offset);
    UpToSplits(log, snapshot);
    var at, to := UpTo(log, offset), UpTo(log, snapshot);
    var i :| 0 <= i < |log| && log[i].offset == snapshot;
    var last := log[to - 1];
    assert last.offset <= snapshot;
  }

  /** One read goes past the snapshot, or at least one event further with more to come. */
  lemma ReadMovesOn(log: seq<Event>, offset: int, snapshot: int)
    requires Rising(log) && offset < snapshot && exists i :: 0 <= i < |log| && log[i].offset == snapshot
    ensures var page := ReadEvents(log, offset, EVENT_STREAM_READ_LIMIT);
      var at, to := UpTo(log, offset), UpTo(log, snapshot);
      var next := at + |page.events|;
      && at < to && next <= |log| && page.events == log[at..next]
      && (page.nextOffset >= snapshot <==> next >= to)
      && (next < to ==> offset < page.nextOffset && !page.upToDate && UpTo(log, page.nextOffset) == next)
  {
    SnapshotIsLast(log, offset, snapshot);
    UpToSplits(log, offset);
    var at, to := UpTo(log, offset), UpTo(log, snapshot);
    var next := at + |ReadEvents(log, offset, EVENT_STREAM_READ_LIMIT).events|;
    hide UpTo;
    assert log[at].offset > offset;
    assert next > at && (next < to ==> log[next - 1].offset < log[to - 1].offset);
    assert next > at + 1 ==> log[at].offset < log[next - 1].offset;
    UpToIs(log, log[next - 1].offset, next);
  }

  // ---- What has been read ----

  /** The event itself has been read, or an earlier one of its identity. */
  ghost predicate Represented(r: seq<Event>, e: Event) {
    exists k :: 0 <= k < |r| && r[k].identity == e.identity && r[k].offset <= e.offset
  }

  /** In the order of the stream, and each identity once. */
  ghost predicate RisingOnce(r: seq<Event>) {
    forall i, j :: 0 <= i < j < |r| ==> r[i].offset < r[j].offset && r[i].identity != r[j].identity
  }

  lemma {:induction false} SanitizedFirst(events: seq<Event>)
    requires Rising(events)
    ensures RisingOnce(Sanitized(events))
    ensures forall i :: 0 <= i < |events| ==> Represented(Sanitized(events), events[i])
  {
    if events != [] {
      var front, last := events[..|events| - 1], events[|events| - 1];
      SanitizedFirst(front);
      SanitizedAppend(front, last);
      assert events == front + [last];
      hide Sanitized, Represented, Identities, RisingOnce, Rising;
      RisesOnce(front, last, Sanitized(front));
      forall i | 0 <= i < |events| ensures Represented(Sanitized(events), events[i]) {
        if i < |front| {
          assert events[i] == front[i];
          StillRepresented(Sanitized(front), last, events[i]);
        } else {
          LastRepresented(front, last, Sanitized(front));
        }
      }
    }
  }

  lemma StillRepresented(r: seq<Event>, more: Event, e: Event)
    requires Represented(r, e)
    ensures Represented(r + [more], e)
  {
    var k :| 0 <= k < |r| && r[k].identity == e.identity && r[k].offset <= e.offset;
    assert (r + [more])[k] == r[k];
  }

  lemma LastRepresented(front: seq<Event>, last: Event, r: seq<Event>)
    requires Rising(front + [last]) && forall i :: 0 <= i < |front| ==> Represented(r, front[i])
    ensures Represented(if last.identity in Identities(front) then r else r + [last], last)
  {
    if last.identity in Identities(front) {
      var i :| 0 <= i < |front| && front[i].identity == last.identity;
      assert (front + [last])[i] == front[i] && (front + [last])[|front|] == last;
      var k :| 0 <= k < |r| && r[k].identity == front[i].identity && r[k].offset <= front[i].offset;
    } else {
      assert (r + [last])[|r|] == last;
    }
  }

  lemma RisesOnce(front: seq<Event>, last: Event, r: seq<Event>)
    requires Rising(front + [last]) && RisingOnce(r) && forall e :: e in r ==> e in front
    ensures last.identity !in Identities(front) ==> RisingOnce(r + [last])
  {
    forall i | 0 <= i < |r| ensures r[i].offset < last.offset && r[i].identity in Identities(front) {
      assert r[i] in front;
      var k :| 0 <= k < |front| && front[k] == r[i];
      assert (front + [last])[k] == front[k] && (front + [last])[|front|] == last;
    }
  }

  /** The window of the stream: exactly the first event of each identity that occurs in it, in order. */
  lemma SnapshotHolds(log: seq<Event>, start: int, snapshot: int)
    requires Rising(log) && start <= snapshot
    ensures var r := SnapshotOf(log, start, snapshot);
      && RisingOnce(r)
      && (forall e :: e in r ==> e in log && start < e.offset <= snapshot)
      && (forall i :: 0 <= i < |log| && start < log[i].offset <= snapshot ==> Represented(r, log[i]))
  {
    hide UpTo, Sanitized, Represented, RisingOnce;
    UpToOrder(log, start, snapshot);
    UpToSplits(log, start);
    UpToSplits(log, snapshot);
    var from, to := UpTo(log, start), UpTo(log, snapshot);
    var window := log[from..to];
    SanitizedFirst(window);
    forall i | 0 <= i < |log| && start < log[i].offset <= snapshot
      ensures Represented(SnapshotOf(log, start, snapshot), log[i])
    {
      assert window[i - from] == log[i];
    }
  }
}
