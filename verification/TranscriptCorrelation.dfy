/** Matching the prompts of a session with the submissions seen in its event stream. */
module TranscriptCorrelation {
  import opened Basics
  import opened Sorting

  datatype Event = Event(submissionId: string, isStart: bool, offset: int, identity: string)

  /** `exact` is the submission id kept with the prompt, `offset` the stream position kept with it. */
  datatype Prompt = Prompt(
    id: string, replayable: bool, visible: bool, exact: Option<string>, offset: Option<int>)

  ghost predicate DistinctPrompts(ps: seq<Prompt>) {
    forall i, j :: 0 <= i < j < |ps| ==> ps[i].id != ps[j].id
  }

  // ---- Exchanges: one builder per submission, in the order of their first events ----

  function Submissions(events: seq<Event>): set<string> {
    set i | 0 <= i < |events| :: events[i].submissionId
  }

  function Builders(events: seq<Event>): (r: seq<string>)
    ensures NoDup(r) && forall s :: s in r <==> s in Submissions(events)
  {
    if events == [] then []
    else
      var front, last := events[..|events| - 1], events[|events| - 1];
      assert events == front + [last];
      assert Submissions(events) == Submissions(front) + {last.submissionId};
      var before := Builders(front);
      if last.submissionId in before then before else before + [last.submissionId]
  }

  /** The k-th event is the first of its submission. */
  predicate FirstEventAt(events: seq<Event>, s: string, k: int) {
    0 <= k < |events| && events[k].submissionId == s && forall j :: 0 <= j < k ==> events[j].submissionId != s
  }

  /** Each submission with an event, in the order of these first events. */
  ghost predicate ByFirstEvent(events: seq<Event>, order: seq<string>) {
    && (forall s :: s in order <==> exists k :: FirstEventAt(events, s, k))
    && (forall i, j, a, b |
          0 <= i < j < |order| && FirstEventAt(events, order[i], a) && FirstEventAt(events, order[j], b) :: a < b)
  }

  lemma {:induction false} BuiltByFirstEvent(events: seq<Event>)
    ensures ByFirstEvent(events, Builders(events))
  {
    if events != [] {
      var front, last, n := events[..|events| - 1], events[|events| - 1], |events| - 1;
      BuiltByFirstEvent(front);
      assert events == front + [last];
      forall s, k ensures FirstEventAt(events, s, k) <==>
        FirstEventAt(front, s, k) || (k == n && s == last.submissionId && s !in Submissions(front))
      {
        SameFirst(front, last, s, k);
      }
      var before := Builders(front);
      if last.submissionId !in before {
        assert FirstEventAt(events, last.submissionId, n);
      }
    }
  }

  lemma SameFirst(front: seq<Event>, last: Event, s: string, k: int)
    ensures FirstEventAt(front + [last], s, k) <==>
      FirstEventAt(front, s, k) || (k == |front| && s == last.submissionId && s !in Submissions(front))
  {
    var events := front + [last];
    assert forall j :: 0 <= j < |front| ==> events[j] == front[j];
    if k == |front| && s in Submissions(front) {
      var j :| 0 <= j < |front| && front[j].submissionId == s;
      assert events[j].submissionId == s;
    }
  }

  method BuildExchanges(events: seq<Event>) returns (order: seq<string>)
    ensures order == Builders(events) && ByFirstEvent(events, order)
  {
    BuiltByFirstEvent(events);
    order := [];
    for i := 0 to |events|
      invariant order == Builders(events[..i])
    {
      assert events[..i + 1][..i] == events[..i];
      if events[i].submissionId !in order {
        order := order + [events[i].submissionId];
      }
    }
    assert events[..|events|] == events;
  }

  predicate OffsetLeq(a: Event, b: Event) { a.offset <= b.offset }

  function StartsOf(events: seq<Event>): (r: seq<Event>)
    ensures forall e :: e in r <==> e in events && e.isStart
  {
    if events == [] then []
    else
      var rest := StartsOf(events[1..]);
      if events[0].isStart then [events[0]] + rest else rest
  }

  function Starts(events: seq<Event>): (r: seq<Event>)
    ensures forall e :: e in r <==> e in events && e.isStart
  {
    var r := SortBy(OffsetLeq, StartsOf(events));
    assert forall e :: e in r <==> e in multiset(r);
    r
  }

  // ---- The three phases ----

  datatype Matching = Matching(matches: map<string, Option<string>>, used: set<string>)

  const NOTHING := Matching(map[], {})

  function Assigned(m: Matching, id: string, s: string): Matching {
    Matching(m.matches[id := Some(s)], m.used + {s})
  }

  function ExactStep(p: Prompt, builders: set<string>, m: Matching): Matching {
    if p.exact.None? then m
    else if p.exact.value in builders && p.exact.value !in m.used then Assigned(m, p.id, p.exact.value)
    else m.(matches := m.matches[p.id := None])
  }

  function ExactPhase(ps: seq<Prompt>, builders: set<string>): Matching {
    if ps == [] then NOTHING
    else ExactStep(ps[|ps| - 1], builders, ExactPhase(ps[..|ps| - 1], builders))
  }

  /** The first operation that starts after the offset and is not taken. */
  function FirstFree(starts: seq<Event>, used: set<string>, offset: int): Option<string> {
    if starts == [] then None
    else if starts[0].submissionId !in used && starts[0].offset > offset then Some(starts[0].submissionId)
    else FirstFree(starts[1..], used, offset)
  }

  function OffsetStep(p: Prompt, starts: seq<Event>, m: Matching): Matching {
    if p.id in m.matches || p.offset.None? then m
    else
      var found := FirstFree(starts, m.used, p.offset.value);
      if found.None? then m else Assigned(m, p.id, found.value)
  }

  function OffsetPhase(ps: seq<Prompt>, starts: seq<Event>, m: Matching): Matching {
    if ps == [] then m
    else OffsetStep(ps[|ps| - 1], starts, OffsetPhase(ps[..|ps| - 1], starts, m))
  }

  function Unmatched(ps: seq<Prompt>, m: Matching): (r: seq<Prompt>)
    ensures forall p :: p in r <==> p in ps && p.id !in m.matches
  {
    if ps == [] then []
    else
      var rest := Unmatched(ps[1..], m);
      if ps[0].id in m.matches then rest else [ps[0]] + rest
  }

  function Unused(order: seq<string>, used: set<string>): (r: seq<string>)
    ensures forall s :: s in r <==> s in order && s !in used
    ensures NoDup(order) ==> NoDup(r)
  {
    if order == [] then []
    else
      var rest := Unused(order[1..], used);
      assert NoDup(order) ==> order[0] !in order[1..];
      if order[0] in used then rest else [order[0]] + rest
  }

  /** The leftovers on either side, paired in order. */
  function PairPhase(us: seq<Prompt>, bs: seq<string>, m: Matching): Matching
    requires |us| == |bs|
  {
    if us == [] then m
    else
      var last := |us| - 1;
      Assigned(PairPhase(us[..last], bs[..last], m), us[last].id, bs[last])
  }

  function DropPhase(us: seq<Prompt>, m: Matching): Matching {
    if us == [] then m
    else
      var before := DropPhase(us[..|us| - 1], m);
      before.(matches := before.matches[us[|us| - 1].id := None])
  }

  function AfterOffsets(ps: seq<Prompt>, events: seq<Event>): Matching {
    OffsetPhase(ps, Starts(events), ExactPhase(ps, Submissions(events)))
  }

  /** Leftovers are paired only if there are as many prompts as exchanges. */
  function Correlated(ps: seq<Prompt>, events: seq<Event>): Matching {
    var m := AfterOffsets(ps, events);
    var us, bs := Unmatched(ps, m), Unused(Builders(events), m.used);
    if |us| == |bs| then PairPhase(us, bs, m) else DropPhase(us, m)
  }

  method CorrelatePrompts(ps: seq<Prompt>, builders: seq<string>, events: seq<Event>)
    returns (matches: map<string, Option<string>>)
    requires builders == Builders(events)
    ensures matches == Correlated(ps, events).matches
  {
    var exact := MatchExact(ps, builders, Submissions(events));
    var m := MatchByOffset(ps, Starts(events), exact);
    var us, bs := Unmatched(ps, m), Unused(builders, m.used);
    if |us| > 0 && |us| == |bs| {
      m := PairLeftovers(us, bs, m);
    } else {
      m := DropLeftovers(us, m);
    }
    matches := m.matches;
  }

  method MatchExact(ps: seq<Prompt>, builders: seq<string>, ghost submissions: set<string>) returns (m: Matching)
    requires forall s :: s in builders <==> s in submissions
    ensures m == ExactPhase(ps, submissions)
  {
    m := NOTHING;
    for i := 0 to |ps|
      invariant m == ExactPhase(ps[..i], submissions)
    {
      assert ps[..i + 1][..i] == ps[..i];
      var p := ps[i];
      if p.exact.Some? {
        var available := p.exact.value in builders && p.exact.value !in m.used;
        m := Matching(m.matches[p.id := if available then p.exact else None],
                      if available then m.used + {p.exact.value} else m.used);
      }
    }
    assert ps[..|ps|] == ps;
  }

  method MatchByOffset(ps: seq<Prompt>, starts: seq<Event>, exact: Matching) returns (m: Matching)
    ensures m == OffsetPhase(ps, starts, exact)
  {
    m := exact;
    for i := 0 to |ps|
      invariant m == OffsetPhase(ps[..i], starts, exact)
    {
      assert ps[..i + 1][..i] == ps[..i];
      var p := ps[i];
      if p.id !in m.matches && p.offset.Some? {
        var found := FirstFree(starts, m.used, p.offset.value);
        if found.Some? {
          m := Assigned(m, p.id, found.value);
        }
      }
    }
    assert ps[..|ps|] == ps;
  }

  method PairLeftovers(us: seq<Prompt>, bs: seq<string>, greedy: Matching) returns (m: Matching)
    requires |us| == |bs|
    ensures m == PairPhase(us, bs, greedy)
  {
    m := greedy;
    for i := 0 to |us|
      invariant m == PairPhase(us[..i], bs[..i], greedy)
    {
      assert us[..i + 1][..i] == us[..i] && bs[..i + 1][..i] == bs[..i];
      m := Assigned(m, us[i].id, bs[i]);
    }
    assert us[..|us|] == us && bs[..|us|] == bs;
  }

  method DropLeftovers(us: seq<Prompt>, greedy: Matching) returns (m: Matching)
    ensures m == DropPhase(us, greedy)
  {
    m := greedy;
    for i := 0 to |us|
      invariant m == DropPhase(us[..i], greedy)
    {
      assert us[..i + 1][..i] == us[..i];
      m := m.(matches := m.matches[us[i].id := None]);
    }
    assert us[..|us|] == us;
  }

  // ---- What the matching guarantees ----

  function PromptIds(ps: seq<Prompt>): set<string> {
    set i | 0 <= i < |ps| :: ps[i].id
  }

  /** Matched submissions are marked used, have an exchange, and go to one prompt each. */
  ghost predicate Sound(m: Matching, builders: set<string>) {
    && m.used <= builders
    && (forall id :: id in m.matches && m.matches[id].Some? ==> m.matches[id].value in m.used)
    && (forall a, b | a in m.matches && b in m.matches && a != b ::
          m.matches[a].Some? && m.matches[b].Some? ==> m.matches[a].value != m.matches[b].value)
  }

  lemma AssignedSound(m: Matching, id: string, s: string, builders: set<string>)
    requires Sound(m, builders) && id !in m.matches && s in builders && s !in m.used
    ensures Sound(Assigned(m, id, s), builders)
  {
  }

  lemma LastPrompt(ps: seq<Prompt>)
    requires ps != []
    ensures var front := ps[..|ps| - 1]; PromptIds(ps) == PromptIds(front) + {ps[|ps| - 1].id}
    ensures DistinctPrompts(ps) ==> DistinctPrompts(ps[..|ps| - 1]) && ps[|ps| - 1].id !in PromptIds(ps[..|ps| - 1])
  {
    assert ps == ps[..|ps| - 1] + [ps[|ps| - 1]];
  }

  lemma {:induction false} ExactSound(ps: seq<Prompt>, builders: set<string>)
    requires DistinctPrompts(ps)
    ensures var m := ExactPhase(ps, builders);
      && Sound(m, builders) && m.matches.Keys <= PromptIds(ps)
      && (forall i :: 0 <= i < |ps| ==> (ps[i].id in m.matches <==> ps[i].exact.Some?))
  {
    if ps != [] {
      ExactSound(ps[..|ps| - 1], builders);
      LastPrompt(ps);
    }
  }

  /** Keeping every decision already made. */
  ghost predicate Extends(m: Matching, later: Matching) {
    && m.used <= later.used
    && forall id :: id in m.matches ==> id in later.matches && later.matches[id] == m.matches[id]
  }

  lemma FirstFreeIsFree(starts: seq<Event>, used: set<string>, offset: int)
    ensures var r := FirstFree(starts, used, offset);
      r.Some? ==> r.value !in used && exists e :: e in starts && e.submissionId == r.value && e.offset > offset
  {
  }

  lemma {:induction false} OffsetSound(ps: seq<Prompt>, events: seq<Event>, m: Matching)
    requires DistinctPrompts(ps) && Sound(m, Submissions(events))
    ensures var later := OffsetPhase(ps, Starts(events), m);
      && Sound(later, Submissions(events)) && Extends(m, later)
      && later.matches.Keys <= m.matches.Keys + PromptIds(ps)
      && (forall id :: id in later.matches && id !in m.matches ==> later.matches[id].Some?)
  {
    if ps != [] {
      var front, p := ps[..|ps| - 1], ps[|ps| - 1];
      OffsetSound(front, events, m);
      LastPrompt(ps);
      var before := OffsetPhase(front, Starts(events), m);
      if p.id !in before.matches && p.offset.Some? {
        FirstFreeIsFree(Starts(events), before.used, p.offset.value);
        var found := FirstFree(Starts(events), before.used, p.offset.value);
        if found.Some? {
          assert found.value in Submissions(events);
          AssignedSound(before, p.id, found.value, Submissions(events));
        }
      }
    }
  }

  lemma {:induction false} PairsExactly(us: seq<Prompt>, bs: seq<string>, m: Matching)
    requires |us| == |bs| && DistinctPrompts(us) && forall p :: p in us ==> p.id !in m.matches
    ensures var later := PairPhase(us, bs, m);
      && Extends(m, later) && later.matches.Keys == m.matches.Keys + PromptIds(us)
      && later.used == m.used + (set s | s in bs)
      && (forall i :: 0 <= i < |us| ==> us[i].id in later.matches && later.matches[us[i].id] == Some(bs[i]))
  {
    if us != [] {
      var last := |us| - 1;
      assert us == us[..last] + [us[last]] && bs == bs[..last] + [bs[last]];
      PairsExactly(us[..last], bs[..last], m);
      LastPrompt(us);
    }
  }

  lemma {:induction false} PairSound(us: seq<Prompt>, bs: seq<string>, m: Matching, builders: set<string>)
    requires |us| == |bs| && DistinctPrompts(us) && NoDup(bs) && Sound(m, builders)
    requires forall p :: p in us ==> p.id !in m.matches
    requires forall s :: s in bs ==> s in builders && s !in m.used
    ensures Sound(PairPhase(us, bs, m), builders)
  {
    if us != [] {
      var last := |us| - 1;
      PairSound(us[..last], bs[..last], m, builders);
      PairsExactly(us[..last], bs[..last], m);
      LastPrompt(us);
      assert us[last] in us && bs[last] in bs;
      hide Sound;
      AssignedSound(PairPhase(us[..last], bs[..last], m), us[last].id, bs[last], builders);
    }
  }

  lemma {:induction false} DropSound(us: seq<Prompt>, m: Matching, builders: set<string>)
    requires Sound(m, builders) && forall p :: p in us ==> p.id !in m.matches
    ensures var later := DropPhase(us, m);
      && Sound(later, builders) && Extends(m, later)
      && later.matches.Keys == m.matches.Keys + PromptIds(us)
      && (forall i :: 0 <= i < |us| ==> us[i].id in later.matches && later.matches[us[i].id] == None)
  {
    if us != [] {
      DropSound(us[..|us| - 1], m, builders);
      LastPrompt(us);
      assert us[|us| - 1] in us;
    }
  }

  lemma {:induction false} UnmatchedDistinct(ps: seq<Prompt>, m: Matching)
    requires DistinctPrompts(ps)
    ensures DistinctPrompts(Unmatched(ps, m))
  {
    if ps != [] {
      UnmatchedDistinct(ps[1..], m);
      assert forall p :: p in Unmatched(ps[1..], m) ==> p in ps[1..];
    }
  }

  lemma LeftoversComplete(ps: seq<Prompt>, m: Matching)
    requires m.matches.Keys <= PromptIds(ps)
    ensures PromptIds(ps) == m.matches.Keys + PromptIds(Unmatched(ps, m))
  {
    var us := Unmatched(ps, m);
    forall id | id in PromptIds(ps) ensures id in m.matches.Keys + PromptIds(us) {
      var i :| 0 <= i < |ps| && ps[i].id == id;
      if id !in m.matches {
        assert ps[i] in us;
      }
    }
    forall id | id in PromptIds(us) ensures id in PromptIds(ps) {
      var i :| 0 <= i < |us| && us[i].id == id;
      assert us[i] in ps;
    }
  }

  /** Every prompt gets a result; no submission goes to two prompts, and only submissions
      for which an exchange was built are given away. */
  lemma EveryPromptAssignedOnce(ps: seq<Prompt>, events: seq<Event>)
    requires DistinctPrompts(ps)
    ensures var r := Correlated(ps, events);
      && Sound(r, Submissions(events)) && r.matches.Keys == PromptIds(ps)
      && Extends(ExactPhase(ps, Submissions(events)), AfterOffsets(ps, events))
      && Extends(AfterOffsets(ps, events), r)
  {
    var builders := Submissions(events);
    ExactSound(ps, builders);
    OffsetSound(ps, events, ExactPhase(ps, builders));
    var m := AfterOffsets(ps, events);
    var us, bs := Unmatched(ps, m), Unused(Builders(events), m.used);
    UnmatchedDistinct(ps, m);
    LeftoversComplete(ps, m);
    hide Sound, Extends, Unmatched;
    if |us| == |bs| {
      PairSound(us, bs, m, builders);
      PairsExactly(us, bs, m);
    } else {
      DropSound(us, m, builders);
    }
  }

  // ---- What each phase decides, exactly ----

  lemma {:induction false} ExactUses(ps: seq<Prompt>, builders: set<string>)
    requires DistinctPrompts(ps)
    ensures forall s :: s in ExactPhase(ps, builders).used <==>
      s in builders && exists i :: 0 <= i < |ps| && ps[i].exact == Some(s)
  {
    if ps != [] {
      var front := ps[..|ps| - 1];
      ExactUses(front, builders);
      forall s ensures s in ExactPhase(ps, builders).used <==>
        s in builders && exists i :: 0 <= i < |ps| && ps[i].exact == Some(s)
      {
        if i :| 0 <= i < |ps| && ps[i].exact == Some(s) {
          assert i < |front| ==> front[i].exact == Some(s);
        }
        assert ps[|ps| - 1].exact == Some(s) || (forall i :: 0 <= i < |ps| && ps[i].exact == Some(s) ==> i < |front|);
        if s in ExactPhase(front, builders).used {
          var i :| 0 <= i < |front| && front[i].exact == Some(s);
          assert ps[i].exact == Some(s);
        }
      }
    }
  }

  lemma {:induction false} ExactPrefix(ps: seq<Prompt>, n: nat, builders: set<string>)
    requires DistinctPrompts(ps) && n <= |ps|
    ensures Extends(ExactPhase(ps[..n], builders), ExactPhase(ps, builders))
  {
    if n == |ps| {
      assert ps[..n] == ps;
    } else {
      var front := ps[..|ps| - 1];
      assert front[..n] == ps[..n];
      ExactPrefix(front, n, builders);
      ExactSound(front, builders);
      LastPrompt(ps);
    }
  }

  lemma ExactAt(ps: seq<Prompt>, builders: set<string>, i: nat)
    requires DistinctPrompts(ps) && i < |ps| && ps[i].exact.Some?
    ensures var m := ExactPhase(ps[..i + 1], builders); var e := ps[i].exact.value;
      && ps[i].id in m.matches
      && (m.matches[ps[i].id] == Some(e) || m.matches[ps[i].id] == None)
      && (m.matches[ps[i].id] == Some(e) <==> e in builders && forall j :: 0 <= j < i ==> ps[j].exact != Some(e))
  {
    var front, upTo := ps[..i], ps[..i + 1];
    var e := ps[i].exact.value;
    assert upTo[..|upTo| - 1] == front && upTo[|upTo| - 1] == ps[i];
    ExactUses(front, builders);
    if j :| 0 <= j < i && ps[j].exact == Some(e) {
      assert front[j].exact == Some(e);
    }
    assert e in ExactPhase(front, builders).used <==> e in builders && exists j :: 0 <= j < i && ps[j].exact == Some(e);
  }

  /** A prompt that names its submission gets it if there is an exchange for it and no
      earlier prompt named it; otherwise it gets nothing, not even something else. */
  lemma NamedSubmissionDecides(ps: seq<Prompt>, events: seq<Event>, i: nat)
    requires DistinctPrompts(ps) && i < |ps| && ps[i].exact.Some?
    ensures var r := Correlated(ps, events).matches; var e := ps[i].exact.value;
      && ps[i].id in r && (r[ps[i].id] == Some(e) || r[ps[i].id] == None)
      && (r[ps[i].id] == Some(e) <==>
            e in Submissions(events) && forall j :: 0 <= j < i ==> ps[j].exact != Some(e))
  {
    var builders := Submissions(events);
    ExactAt(ps, builders, i);
    ExactPrefix(ps, i + 1, builders);
    EveryPromptAssignedOnce(ps, events);
    hide Correlated, AfterOffsets, ExactPhase, Sound, DistinctPrompts, Submissions;
  }

  lemma {:induction false} OffsetPrefix(ps: seq<Prompt>, n: nat, starts: seq<Event>, m: Matching)
    requires n <= |ps|
    ensures Extends(OffsetPhase(ps[..n], starts, m), OffsetPhase(ps, starts, m))
  {
    if n == |ps| {
      assert ps[..n] == ps;
    } else {
      var front := ps[..|ps| - 1];
      assert front[..n] == ps[..n];
      OffsetPrefix(front, n, starts, m);
    }
  }

  /** The chosen start is the first one after the offset that nobody had taken before. */
  lemma {:induction false} FirstFreeIsFirst(starts: seq<Event>, used: set<string>, offset: int)
    ensures match FirstFree(starts, used, offset)
      case Some(s) => exists k :: 0 <= k < |starts| && starts[k].submissionId == s && starts[k].offset > offset
                        && s !in used
                        && forall j :: 0 <= j < k ==> starts[j].offset <= offset || starts[j].submissionId in used
      case None => forall j :: 0 <= j < |starts| ==> starts[j].offset <= offset || starts[j].submissionId in used
  {
    if starts != [] && !(starts[0].submissionId !in used && starts[0].offset > offset) {
      FirstFreeIsFirst(starts[1..], used, offset);
      var r := FirstFree(starts[1..], used, offset);
      if r.Some? {
        var k :| 0 <= k < |starts[1..]| && starts[1..][k].submissionId == r.value && starts[1..][k].offset > offset
                 && r.value !in used
                 && forall j :: 0 <= j < k ==> starts[1..][j].offset <= offset || starts[1..][j].submissionId in used;
        assert starts[k + 1] == starts[1..][k];
        forall j | 0 <= j < k + 1 ensures starts[j].offset <= offset || starts[j].submissionId in used {
          if j > 0 {
            assert starts[j] == starts[1..][j - 1];
          }
        }
      } else {
        forall j | 0 <= j < |starts| ensures starts[j].offset <= offset || starts[j].submissionId in used {
          if j > 0 {
            assert starts[j] == starts[1..][j - 1];
          }
        }
      }
    }
  }

  lemma StartsSorted(events: seq<Event>)
    ensures SortedBy(OffsetLeq, Starts(events))
  {
    SortBySorts(OffsetLeq, StartsOf(events));
  }

  lemma OffsetAt(ps: seq<Prompt>, starts: seq<Event>, exact: Matching, i: nat)
    requires i < |ps| && ps[i].offset.Some? && ps[i].id !in OffsetPhase(ps[..i], starts, exact).matches
    ensures var found := FirstFree(starts, OffsetPhase(ps[..i], starts, exact).used, ps[i].offset.value);
      var m := OffsetPhase(ps[..i + 1], starts, exact);
      found.Some? ==> ps[i].id in m.matches && m.matches[ps[i].id] == found
  {
    var upTo := ps[..i + 1];
    assert upTo[..|upTo| - 1] == ps[..i] && upTo[|upTo| - 1] == ps[i];
  }

  /** A prompt that only knows its stream position is given the earliest operation started
      after it, among those not taken by a named submission or by an earlier such prompt. */
  lemma PositionDecides(ps: seq<Prompt>, events: seq<Event>, i: nat)
    requires DistinctPrompts(ps) && i < |ps| && ps[i].exact.None? && ps[i].offset.Some?
    ensures var starts := Starts(events);
      var before := OffsetPhase(ps[..i], starts, ExactPhase(ps, Submissions(events)));
      var found := FirstFree(starts, before.used, ps[i].offset.value);
      var r := Correlated(ps, events).matches;
      && SortedBy(OffsetLeq, starts)
      && (found.Some? ==> ps[i].id in r && r[ps[i].id] == found)
  {
    var exact, starts := ExactPhase(ps, Submissions(events)), Starts(events);
    StartsSorted(events);
    ExactSound(ps, Submissions(events));
    PrefixKeys(ps, i, events, exact);
    OffsetAt(ps, starts, exact, i);
    OffsetPrefix(ps, i + 1, starts, exact);
    EveryPromptAssignedOnce(ps, events);
    hide Correlated, ExactPhase, OffsetPhase, FirstFree, Starts, Sound, DistinctPrompts, Submissions, SortedBy;
  }

  lemma PrefixKeys(ps: seq<Prompt>, i: nat, events: seq<Event>, m: Matching)
    requires DistinctPrompts(ps) && i < |ps| && Sound(m, Submissions(events)) && ps[i].id !in m.matches
    ensures ps[i].id !in OffsetPhase(ps[..i], Starts(events), m).matches
  {
    OffsetSound(ps[..i], events, m);
  }

  // ---- What is left over, counted along the prompts and along the events ----

  /** How many of the first n prompts are still without a result. */
  function LeftPrompts(ps: seq<Prompt>, m: Matching, n: nat): nat
    requires n <= |ps|
  {
    if n == 0 then 0 else LeftPrompts(ps, m, n - 1) + if ps[n - 1].id in m.matches then 0 else 1
  }

  /** How many submissions not yet given away have their first event among the first n. */
  function LeftSubmissions(events: seq<Event>, m: Matching, n: nat): nat
    requires n <= |events|
  {
    if n == 0 then 0
    else
      var s := events[n - 1].submissionId;
      LeftSubmissions(events, m, n - 1) + if FirstEventAt(events, s, n - 1) && s !in m.used then 1 else 0
  }

  lemma {:induction false} UnmatchedAppend(ps: seq<Prompt>, p: Prompt, m: Matching)
    ensures Unmatched(ps + [p], m) == Unmatched(ps, m) + if p.id in m.matches then [] else [p]
  {
    if ps != [] {
      assert (ps + [p])[1..] == ps[1..] + [p];
      UnmatchedAppend(ps[1..], p, m);
    }
  }

  lemma {:induction false} UnusedAppend(order: seq<string>, s: string, used: set<string>)
    ensures Unused(order + [s], used) == Unused(order, used) + if s in used then [] else [s]
  {
    if order != [] {
      assert (order + [s])[1..] == order[1..] + [s];
      UnusedAppend(order[1..], s, used);
    }
  }

  lemma UnmatchedNext(ps: seq<Prompt>, m: Matching, n: nat)
    requires n < |ps|
    ensures Unmatched(ps[..n + 1], m) == Unmatched(ps[..n], m) + if ps[n].id in m.matches then [] else [ps[n]]
  {
    assert ps[..n + 1] == ps[..n] + [ps[n]];
    UnmatchedAppend(ps[..n], ps[n], m);
  }

  /** The k-th prompt, if left over, comes after just as many. */
  ghost predicate PromptPlaced(ps: seq<Prompt>, m: Matching, k: nat, us: seq<Prompt>)
    requires k < |ps|
  {
    ps[k].id !in m.matches ==> LeftPrompts(ps, m, k) < |us| && us[LeftPrompts(ps, m, k)] == ps[k]
  }

  lemma LeftPromptsNext(ps: seq<Prompt>, m: Matching, n: nat)
    requires n < |ps|
    ensures LeftPrompts(ps, m, n + 1) == LeftPrompts(ps, m, n) + if ps[n].id in m.matches then 0 else 1
  {
  }

  lemma StillPlaced(ps: seq<Prompt>, m: Matching, k: nat, us: seq<Prompt>, more: seq<Prompt>)
    requires k < |ps| && PromptPlaced(ps, m, k, us)
    ensures PromptPlaced(ps, m, k, us + more)
  {
  }

  lemma NowPlaced(ps: seq<Prompt>, m: Matching, k: nat, us: seq<Prompt>)
    requires k < |ps| && |us| == LeftPrompts(ps, m, k)
    ensures PromptPlaced(ps, m, k, us + if ps[k].id in m.matches then [] else [ps[k]])
  {
  }

  lemma {:induction false} CountPrompts(ps: seq<Prompt>, m: Matching, n: nat)
    requires n <= |ps|
    ensures |Unmatched(ps[..n], m)| == LeftPrompts(ps, m, n)
    ensures forall k :: 0 <= k < n ==> PromptPlaced(ps, m, k, Unmatched(ps[..n], m))
  {
    if n > 0 {
      CountPrompts(ps, m, n - 1);
      UnmatchedNext(ps, m, n - 1);
      LeftPromptsNext(ps, m, n - 1);
      hide *;
      AllPlaced(ps, m, n - 1, Unmatched(ps[..n - 1], m), Unmatched(ps[..n], m));
    } else {
      hide PromptPlaced;
    }
  }

  lemma AllPlaced(ps: seq<Prompt>, m: Matching, n: nat, before: seq<Prompt>, after: seq<Prompt>)
    requires n < |ps| && after == before + if ps[n].id in m.matches then [] else [ps[n]]
    requires |before| == LeftPrompts(ps, m, n) && forall k :: 0 <= k < n ==> PromptPlaced(ps, m, k, before)
    ensures forall k :: 0 <= k < n + 1 ==> PromptPlaced(ps, m, k, after)
  {
    hide PromptPlaced, LeftPrompts;
    NowPlaced(ps, m, n, before);
    forall k | 0 <= k < n ensures PromptPlaced(ps, m, k, after) {
      StillPlaced(ps, m, k, before, if ps[n].id in m.matches then [] else [ps[n]]);
    }
  }

  lemma UnusedNext(events: seq<Event>, m: Matching, n: nat)
    requires n < |events|
    ensures var s, bs := events[n].submissionId, Unused(Builders(events[..n]), m.used);
      Unused(Builders(events[..n + 1]), m.used) == bs + if FirstEventAt(events, s, n) && s !in m.used then [s] else []
  {
    var e := events[n];
    assert events[..n + 1] == events[..n] + [e] && events[..n + 1][..n] == events[..n];
    UnusedAppend(Builders(events[..n]), e.submissionId, m.used);
    FirstIffNew(events, n);
  }

  /** The i-th submission left over has its first event after just as many others'. */
  ghost predicate SubmissionPlaced(events: seq<Event>, m: Matching, n: nat, s: string, i: nat)
    requires n <= |events|
  {
    exists k :: 0 <= k < n && FirstEventAt(events, s, k) && LeftSubmissions(events, m, k) == i
  }

  lemma {:induction false} CountSubmissions(events: seq<Event>, m: Matching, n: nat)
    requires n <= |events|
    ensures var bs := Unused(Builders(events[..n]), m.used);
      && |bs| == LeftSubmissions(events, m, n)
      && forall i :: 0 <= i < |bs| ==> SubmissionPlaced(events, m, n, bs[i], i)
  {
    if n > 0 {
      CountSubmissions(events, m, n - 1);
      UnusedNext(events, m, n - 1);
      hide Unused, Builders, FirstEventAt;
      var bs, before := Unused(Builders(events[..n]), m.used), Unused(Builders(events[..n - 1]), m.used);
      forall i | 0 <= i < |bs| ensures SubmissionPlaced(events, m, n, bs[i], i) {
        if i < |before| {
          assert SubmissionPlaced(events, m, n - 1, before[i], i);
        } else {
          assert FirstEventAt(events, bs[i], n - 1);
        }
      }
    }
  }

  lemma FirstIffNew(events: seq<Event>, n: nat)
    requires n < |events|
    ensures FirstEventAt(events, events[n].submissionId, n) <==> events[n].submissionId !in Builders(events[..n])
  {
    var front := events[..n];
    if events[n].submissionId in Submissions(front) {
      var j :| 0 <= j < |front| && front[j].submissionId == events[n].submissionId;
      assert events[j] == front[j];
    } else {
      assert forall j :: 0 <= j < n ==> events[j] == front[j] && front[j].submissionId in Submissions(front);
    }
  }

  /** The rest are paired with the remaining exchanges one to one and in order, or with none at all:
      if the counts agree, a prompt with so many left over before it gets the submission not given away
      whose first event has as many of the others before it. */
  lemma {:induction false} LeftoversDecided(ps: seq<Prompt>, events: seq<Event>, n: nat)
    requires DistinctPrompts(ps) && n < |ps| && ps[n].id !in AfterOffsets(ps, events).matches
    ensures var m, r := AfterOffsets(ps, events), Correlated(ps, events).matches;
      && ps[n].id in r
      && if LeftPrompts(ps, m, |ps|) != LeftSubmissions(events, m, |events|) then r[ps[n].id] == None
         else exists k, s :: FirstEventAt(events, s, k) && s !in m.used && r[ps[n].id] == Some(s)
                             && LeftSubmissions(events, m, k) == LeftPrompts(ps, m, n)
  {
    var m := AfterOffsets(ps, events);
    var us, bs, i := Unmatched(ps, m), Unused(Builders(events), m.used), LeftPrompts(ps, m, n);
    assert ps[..|ps|] == ps && events[..|events|] == events;
    CountPrompts(ps, m, |ps|);
    CountSubmissions(events, m, |events|);
    assert PromptPlaced(ps, m, n, us) && i < |us| && us[i] == ps[n];
    PairsInOrder(ps, events, i);
    hide AfterOffsets, Correlated, Unmatched, Builders, LeftPrompts, LeftSubmissions, FirstEventAt, PromptPlaced;
    if |us| == |bs| {
      assert bs[i] in bs && SubmissionPlaced(events, m, |events|, bs[i], i);
    }
  }

  lemma PairsInOrder(ps: seq<Prompt>, events: seq<Event>, i: nat)
    requires DistinctPrompts(ps)
    requires i < |Unmatched(ps, AfterOffsets(ps, events))|
    ensures var m := AfterOffsets(ps, events);
      var us, bs := Unmatched(ps, m), Unused(Builders(events), m.used);
      var r := Correlated(ps, events).matches;
      us[i].id in r && r[us[i].id] == if |us| == |bs| then Some(bs[i]) else None
  {
    var m := AfterOffsets(ps, events);
    var us, bs := Unmatched(ps, m), Unused(Builders(events), m.used);
    UnmatchedDistinct(ps, m);
    ExactSound(ps, Submissions(events));
    OffsetSound(ps, events, ExactPhase(ps, Submissions(events)));
    if |us| == |bs| {
      PairsExactly(us, bs, m);
    } else {
      DropSound(us, m, Submissions(events));
    }
  }
}
