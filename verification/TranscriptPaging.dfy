/** Reading a session's transcript backwards, a page at a time. */
module TranscriptPaging {
  import opened Basics
  import opened TranscriptCorrelation
  import opened TranscriptSnapshot

  /** A fixed history: the session's prompts, oldest first, and its event stream with a snapshot of it. */
  datatype History = History(prompts: seq<Prompt>, log: seq<Event>, snapshot: int) {
    ghost predicate Valid() {
      && DistinctPrompts(prompts) && Rising(log)
      && (snapshot < 0 || exists i :: 0 <= i < |log| && log[i].offset == snapshot)
      && (forall p :: p in prompts && p.offset.Some? ==> p.offset.value >= -1)
    }
  }

  datatype Entry = Entry(prompt: Prompt, submission: Option<string>)

  // ---- Entries of a window of prompts ----

  function Replayable(ps: seq<Prompt>): (r: seq<Prompt>)
    ensures forall p :: p in r <==> p in ps && p.replayable
  {
    if ps == [] then []
    else Replayable(ps[..|ps| - 1]) + if ps[|ps| - 1].replayable then [ps[|ps| - 1]] else []
  }

  /** An internal prompt only shows if it has an exchange; a visible one always does. */
  function ShownOne(p: Prompt, matches: map<string, Option<string>>): seq<Entry> {
    var submission := if p.id in matches then matches[p.id] else None;
    if submission.Some? || p.visible then [Entry(p, submission)] else []
  }

  function Shown(ps: seq<Prompt>, matches: map<string, Option<string>>): seq<Entry> {
    if ps == [] then [] else Shown(ps[..|ps| - 1], matches) + ShownOne(ps[|ps| - 1], matches)
  }

  function EarliestOffset(ps: seq<Prompt>): int {
    if ps != [] && ps[0].offset.Some? then ps[0].offset.value else -1
  }

  function EventsFor(h: History, window: seq<Prompt>): seq<Event> {
    SnapshotOf(h.log, EarliestOffset(window), h.snapshot)
  }

  function Entries(h: History, window: seq<Prompt>): seq<Entry> {
    var ps := Replayable(window);
    Shown(ps, Correlated(ps, EventsFor(h, window)).matches)
  }

  method ProjectPromptTranscriptEntries(ghost h: History, window: seq<Prompt>, events: seq<Event>)
    returns (entries: seq<Entry>)
    requires DistinctPrompts(window) && events == EventsFor(h, window)
    ensures entries == Entries(h, window)
  {
    var prompts := Replayable(window);
    var builders := BuildExchanges(events);
    var matches := CorrelatePrompts(prompts, builders, events);
    ReplayableDistinct(window);
    EveryPromptAssignedOnce(prompts, events);
    entries := ShowAll(prompts, matches);
  }

  method ShowAll(prompts: seq<Prompt>, matches: map<string, Option<string>>) returns (entries: seq<Entry>)
    requires matches.Keys == PromptIds(prompts)
    ensures entries == Shown(prompts, matches)
  {
    entries := [];
    for i := 0 to |prompts|
      invariant entries == Shown(prompts[..i], matches)
    {
      var p := prompts[i];
      assert prompts[..i + 1][..i] == prompts[..i];
      InKeys(prompts, i);
      var submission := matches[p.id];
      if submission.Some? || p.visible {
        entries := entries + [Entry(p, submission)];
      }
    }
    assert prompts[..|prompts|] == prompts;
  }

  lemma InKeys(ps: seq<Prompt>, i: nat)
    requires i < |ps|
    ensures ps[i].id in PromptIds(ps)
  {
  }

  lemma {:induction false} ReplayableDistinct(ps: seq<Prompt>)
    requires DistinctPrompts(ps)
    ensures DistinctPrompts(Replayable(ps))
  {
    if ps != [] {
      var front := ps[..|ps| - 1];
      ReplayableDistinct(front);
      assert forall p :: p in Replayable(front) ==> p in front;
    }
  }

  // ---- One page ----

  datatype Page = Page(entries: seq<Entry>, hasOlder: bool, before: Option<string>) | CursorInvalid

  function BatchSize(limit: nat): nat {
    var wanted := if limit + 1 > 100 then limit + 1 else 100;
    if wanted < 1000 then wanted else 1000
  }

  /** Where the backwards scan from `start` stops. */
  function ScanStart(h: History, start: nat, end: nat, limit: nat): (r: nat)
    requires start <= end <= |h.prompts|
    ensures r <= start
    decreases start
  {
    if start == 0 then 0
    else
      var next := if start > BatchSize(limit) then start - BatchSize(limit) else 0;
      if |Entries(h, h.prompts[next..end])| > limit then next else ScanStart(h, next, end, limit)
  }

  /** The entries a slice from the end by a negative count keeps; by -0 it keeps everything. */
  function Newest(entries: seq<Entry>, limit: nat): seq<Entry> {
    if limit == 0 || |entries| <= limit then entries else entries[|entries| - limit..]
  }

  function PageAt(h: History, end: nat, limit: nat): (page: Page)
    requires end <= |h.prompts|
    ensures page.Page?
  {
    var entries := Entries(h, h.prompts[ScanStart(h, end, end, limit)..end]);
    var selected := Newest(entries, limit);
    var older := |entries| > limit;
    Page(selected, older, if older then Some(selected[0].prompt.id) else None)
  }

  function IndexOf(ps: seq<Prompt>, id: string): (r: Option<nat>)
    ensures r.Some? ==> r.value < |ps| && ps[r.value].id == id
    ensures r.None? ==> forall i :: 0 <= i < |ps| ==> ps[i].id != id
  {
    if ps == [] then None
    else if ps[|ps| - 1].id == id then Some(|ps| - 1)
    else IndexOf(ps[..|ps| - 1], id)
  }

  /** The store's listing: the last so many prompts strictly before the given one, oldest first. */
  function ListBefore(ps: seq<Prompt>, before: Option<string>, limit: nat): seq<Prompt> {
    var end := if before.None? then Some(|ps|) else IndexOf(ps, before.value);
    if end.None? then []
    else ps[if end.value > limit then end.value - limit else 0..end.value]
  }

  lemma IndexIs(ps: seq<Prompt>, i: nat)
    requires DistinctPrompts(ps) && i < |ps|
    ensures IndexOf(ps, ps[i].id) == Some(i)
  {
  }

  function EndOf(ps: seq<Prompt>, cursor: Option<string>): (r: Option<nat>)
    ensures r.Some? ==> r.value <= |ps|
  {
    if cursor.None? then Some(|ps|) else IndexOf(ps, cursor.value)
  }

  /** A page ends where its cursor's prompt is, or at the newest prompt. */
  lemma EndIs(h: History, cursor: Option<string>)
    requires h.Valid()
    ensures var end := EndOf(h.prompts, cursor);
      && (cursor.None? ==> end == Some(|h.prompts|))
      && (cursor.Some? ==> forall i :: 0 <= i < |h.prompts| && h.prompts[i].id == cursor.value ==> end == Some(i))
      && (cursor.Some? && (forall i :: 0 <= i < |h.prompts| ==> h.prompts[i].id != cursor.value) ==> end == None)
  {
    forall i | 0 <= i < |h.prompts| && cursor == Some(h.prompts[i].id) ensures EndOf(h.prompts, cursor) == Some(i) {
      IndexIs(h.prompts, i);
    }
  }

  method LoadSessionTranscriptPage(h: History, cursor: Option<string>, limit: nat) returns (page: Page)
    requires h.Valid()
    ensures var end := EndOf(h.prompts, cursor);
      page == if end.None? then CursorInvalid else PageAt(h, end.value, limit)
    ensures cursor.None? ==> page == PageAt(h, |h.prompts|, limit)
    ensures cursor.Some? ==>
      && (forall i :: 0 <= i < |h.prompts| && h.prompts[i].id == cursor.value ==> page == PageAt(h, i, limit))
      && ((forall i :: 0 <= i < |h.prompts| ==> h.prompts[i].id != cursor.value) ==> page == CursorInvalid)
  {
    var end := EndOf(h.prompts, cursor);
    EndIs(h, cursor);
    hide EndOf, IndexOf, DistinctPrompts;
    if end.None? {
      return CursorInvalid;
    }
    var entries, reached := Scan(h, cursor, end.value, limit);
    if entries == [] {
      return Page([], false, None);
    }
    var selected := Newest(entries, limit);
    var hasOlder := |entries| > limit || !reached;
    page := Page(selected, hasOlder, if hasOlder then Some(selected[0].prompt.id) else None);
  }

  /** Fetch older and older batches until there are enough entries or no more prompts. */
  method Scan(h: History, cursor: Option<string>, end: nat, limit: nat)
    returns (entries: seq<Entry>, reachedOldest: bool)
    requires h.Valid() && EndOf(h.prompts, cursor) == Some(end)
    ensures entries == Entries(h, h.prompts[ScanStart(h, end, end, limit)..end])
    ensures |entries| > limit || reachedOldest
  {
    var prompts, scanBefore := [], cursor;
    ghost var start: nat := end;
    entries, reachedOldest := [], false;
    hide *;
    NothingYet(h, end);
    while |entries| <= limit && !reachedOldest
      invariant start <= end <= |h.prompts| && prompts == h.prompts[start..end]
      invariant EndOf(h.prompts, scanBefore) == Some(start)
      invariant entries == Entries(h, prompts)
      invariant reachedOldest ==> start == 0
      invariant ScanStart(h, end, end, limit) == if |entries| > limit then start else ScanStart(h, start, end, limit)
      decreases start, if reachedOldest then 0 else 1
    {
      var batch := ListBefore(h.prompts, scanBefore, BatchSize(limit));
      ValidPrompts(h, limit);
      ghost var next: nat := if start > BatchSize(limit) then start - BatchSize(limit) else 0;
      BatchIs(h, scanBefore, start, end, next, limit);
      if |batch| == 0 {
        reachedOldest := true;
        break;
      }
      prompts := batch + prompts;
      entries := EntriesOf(h, prompts, next, end);
      start := next;
      if |batch| < BatchSize(limit) {
        reachedOldest := true;
        break;
      }
      assert Some(batch[0].id) != scanBefore;
      scanBefore := Some(batch[0].id);
    }
    ScanEnds(h, end, limit);
  }

  method EntriesOf(h: History, prompts: seq<Prompt>, ghost start: nat, ghost end: nat) returns (entries: seq<Entry>)
    requires h.Valid() && start <= end <= |h.prompts| && prompts == h.prompts[start..end]
    ensures entries == Entries(h, prompts)
  {
    SnapshotReadable(h, prompts, start, end);
    var events := ReadTranscriptSnapshot(h.log, EarliestOffset(prompts), h.snapshot);
    WindowDistinct(h.prompts, start, end);
    entries := ProjectPromptTranscriptEntries(h, prompts, events);
  }

  lemma SnapshotReadable(h: History, prompts: seq<Prompt>, start: nat, end: nat)
    requires h.Valid() && start <= end <= |h.prompts| && prompts == h.prompts[start..end]
    ensures Rising(h.log)
    ensures EarliestOffset(prompts) < h.snapshot ==> exists i :: 0 <= i < |h.log| && h.log[i].offset == h.snapshot
  {
    if start < end {
      assert prompts[0] == h.prompts[start] && h.prompts[start] in h.prompts;
    }
  }

  lemma NothingYet(h: History, end: nat)
    requires end <= |h.prompts|
    ensures Entries(h, []) == [] && h.prompts[end..end] == []
  {
  }

  lemma ValidPrompts(h: History, limit: nat)
    requires h.Valid()
    ensures DistinctPrompts(h.prompts) && BatchSize(limit) > 0
  {
  }

  lemma ScanEnds(h: History, end: nat, limit: nat)
    requires end <= |h.prompts|
    ensures ScanStart(h, 0, end, limit) == 0
  {
  }

  /** The listing returns the batch before the window; it is empty only at the very beginning,
      and the cursor it leaves differs from the one it was given. */
  lemma BatchIs(h: History, before: Option<string>, start: nat, end: nat, next: nat, limit: nat)
    requires h.Valid() && DistinctPrompts(h.prompts) && BatchSize(limit) > 0
    requires start <= end <= |h.prompts| && EndOf(h.prompts, before) == Some(start)
    requires next == if start > BatchSize(limit) then start - BatchSize(limit) else 0
    ensures var batch := ListBefore(h.prompts, before, BatchSize(limit));
      && batch + h.prompts[start..end] == h.prompts[next..end] && |batch| == start - next
      && batch == h.prompts[next..start] && (batch == [] <==> start == 0)
      && (batch != [] ==> EndOf(h.prompts, Some(batch[0].id)) == Some(next) && Some(batch[0].id) != before)
    ensures var w := Entries(h, h.prompts[next..end]); start > 0 ==>
      ScanStart(h, start, end, limit) == (if |w| > limit then next else ScanStart(h, next, end, limit))
  {
    Listed(h.prompts, before, start, next, BatchSize(limit));
    SplitAt(h.prompts, next, start, end);
    ScanNext(h, start, end, next, limit);
    hide *;
  }

  lemma ScanNext(h: History, start: nat, end: nat, next: nat, limit: nat)
    requires start <= end <= |h.prompts| && next == if start > BatchSize(limit) then start - BatchSize(limit) else 0
    ensures var w := Entries(h, h.prompts[next..end]); start > 0 ==>
      ScanStart(h, start, end, limit) == (if |w| > limit then next else ScanStart(h, next, end, limit))
  {
    hide Entries;
  }

  lemma SplitAt<T>(s: seq<T>, a: nat, b: nat, c: nat)
    requires a <= b <= c <= |s|
    ensures s[a..b] + s[b..c] == s[a..c]
  {
  }

  lemma Listed(ps: seq<Prompt>, before: Option<string>, start: nat, next: nat, size: nat)
    requires DistinctPrompts(ps) && EndOf(ps, before) == Some(start) && size > 0
    requires next == if start > size then start - size else 0
    ensures var batch := ListBefore(ps, before, size);
      && batch == ps[next..start] && |batch| == start - next && (batch == [] <==> start == 0)
      && (batch != [] ==> EndOf(ps, Some(batch[0].id)) == Some(next) && Some(batch[0].id) != before)
  {
    hide IndexOf;
    if start > 0 {
      IndexIs(ps, next);
    }
  }

  lemma WindowDistinct(ps: seq<Prompt>, start: nat, end: nat)
    requires DistinctPrompts(ps) && start <= end <= |ps|
    ensures DistinctPrompts(ps[start..end])
  {
  }

  // ---- Following the cursors ----

  function Visible(ps: seq<Prompt>): seq<Prompt> {
    if ps == [] then []
    else Visible(ps[..|ps| - 1])
         + if ps[|ps| - 1].replayable && ps[|ps| - 1].visible then [ps[|ps| - 1]] else []
  }

  function PromptsOf(entries: seq<Entry>): (r: seq<Prompt>)
    ensures |r| == |entries| && forall i :: 0 <= i < |r| ==> r[i] == entries[i].prompt
  {
    seq(|entries|, i requires 0 <= i < |entries| => entries[i].prompt)
  }

  function Kept(ps: seq<Prompt>, keep: set<string>): seq<Prompt> {
    if ps == [] then []
    else Kept(ps[..|ps| - 1], keep) + if ps[|ps| - 1].id in keep then [ps[|ps| - 1]] else []
  }

  predicate Shows(p: Prompt, matches: map<string, Option<string>>) {
    p.replayable && (p.visible || (p.id in matches && matches[p.id].Some?))
  }

  lemma PromptsConcat(a: seq<Entry>, b: seq<Entry>)
    ensures PromptsOf(a + b) == PromptsOf(a) + PromptsOf(b)
  {
  }

  lemma ShownAppend(ps: seq<Prompt>, p: Prompt, matches: map<string, Option<string>>)
    ensures Shown(ps + [p], matches) == Shown(ps, matches) + ShownOne(p, matches)
  {
    assert (ps + [p])[..|ps|] == ps;
  }

  lemma {:induction false} ShownKept(ps: seq<Prompt>, matches: map<string, Option<string>>, keep: set<string>)
    requires forall p :: p in ps ==> (p.id in keep <==> Shows(p, matches))
    ensures PromptsOf(Shown(Replayable(ps), matches)) == Kept(ps, keep)
  {
    if ps != [] {
      var front, last := ps[..|ps| - 1], ps[|ps| - 1];
      ShownKept(front, matches, keep);
      assert last in ps;
      ShowsOne(last, matches);
      ShownAppend(Replayable(front), last, matches);
      PromptsConcat(Shown(Replayable(front), matches), ShownOne(last, matches));
      assert Replayable(ps) == if last.replayable then Replayable(front) + [last] else Replayable(front);
      assert Kept(ps, keep) == Kept(front, keep) + if last.id in keep then [last] else [];
      hide *;
    }
  }

  lemma ShowsOne(p: Prompt, matches: map<string, Option<string>>)
    ensures Shows(p, matches) ==> p.replayable
    ensures p.replayable ==> PromptsOf(ShownOne(p, matches)) == if Shows(p, matches) then [p] else []
  {
  }

  /** The entries of a window keep some of its prompts, in order: all visible replayable ones among them. */
  lemma EntriesKeep(h: History, window: seq<Prompt>) returns (keep: set<string>)
    requires DistinctPrompts(window)
    ensures Keeps(window, Entries(h, window), keep)
  {
    var matches := Correlated(Replayable(window), EventsFor(h, window)).matches;
    keep := set i | 0 <= i < |window| && Shows(window[i], matches) :: window[i].id;
    forall p | p in window ensures p.id in keep <==> Shows(p, matches) {
      var j :| 0 <= j < |window| && window[j] == p;
      if p.id in keep {
        var i :| 0 <= i < |window| && Shows(window[i], matches) && window[i].id == p.id;
        assert i == j;
      }
    }
    hide Correlated, EventsFor;
    ShownKept(window, matches, keep);
  }

  lemma {:induction false} KeptVisible(ps: seq<Prompt>, keep: set<string>)
    requires forall p :: p in ps && p.replayable && p.visible ==> p.id in keep
    ensures Visible(Kept(ps, keep)) == Visible(ps)
  {
    if ps != [] {
      var front, last := ps[..|ps| - 1], ps[|ps| - 1];
      KeptVisible(front, keep);
      assert last in ps;
      var ks := Kept(front, keep);
      if last.id in keep {
        assert Kept(ps, keep) == ks + [last] && (ks + [last])[..|ks|] == ks;
      } else {
        assert Kept(ps, keep) == ks;
      }
    }
  }

  /** A suffix of what is kept is what is kept of a suffix. */
  lemma {:induction false} KeptSuffix(ps: seq<Prompt>, keep: set<string>, k: nat) returns (i: nat)
    requires k < |Kept(ps, keep)|
    ensures i < |ps| && ps[i] == Kept(ps, keep)[k] && Kept(ps[i..], keep) == Kept(ps, keep)[k..]
  {
    var front, last := ps[..|ps| - 1], ps[|ps| - 1];
    if k == |Kept(front, keep)| {
      i := |front|;
      assert ps[i..] == [last] && [last][..|[last]| - 1] == [];
      assert Kept([last], keep) == Kept([], keep) + [last];
      assert Kept(ps, keep) == Kept(front, keep) + [last];
    } else {
      i := KeptSuffix(front, keep, k);
      assert ps[i..] == front[i..] + [last];
      assert ps[i..][..|ps[i..]| - 1] == front[i..];
    }
  }

  lemma {:induction false} VisibleConcat(a: seq<Prompt>, b: seq<Prompt>)
    ensures Visible(a + b) == Visible(a) + Visible(b)
  {
    if b == [] {
      assert a + b == a;
    } else {
      VisibleConcat(a, b[..|b| - 1]);
      assert (a + b)[..|a + b| - 1] == a + b[..|b| - 1];
    }
  }

  /** Where a page begins: the prompt its cursor names, or the very start. */
  ghost predicate PageCovers(h: History, end: nat, page: Page, from: nat)
    requires end <= |h.prompts| && page.Page?
  {
    && from <= end
    && Visible(PromptsOf(page.entries)) == Visible(h.prompts[from..end])
    && (page.before.None? ==> from == 0 || Visible(h.prompts[..from]) == [])
    && (page.before.Some? ==> from < end && EndOf(h.prompts, page.before) == Some(from))
  }

  lemma PageIsContiguous(h: History, end: nat, limit: nat) returns (from: nat)
    requires h.Valid() && end <= |h.prompts|
    ensures PageCovers(h, end, PageAt(h, end, limit), from)
  {
    var start := ScanStart(h, end, end, limit);
    WindowDistinct(h.prompts, start, end);
    var keep := EntriesKeep(h, h.prompts[start..end]);
    if |Entries(h, h.prompts[start..end])| <= limit {
      from := start;
      UncutPage(h, end, limit, keep);
    } else {
      from := CutPage(h, end, limit, keep);
    }
  }

  ghost predicate Keeps(window: seq<Prompt>, entries: seq<Entry>, keep: set<string>) {
    && PromptsOf(entries) == Kept(window, keep)
    && forall p :: p in window && p.replayable && p.visible ==> p.id in keep
  }

  lemma UncutPage(h: History, end: nat, limit: nat, keep: set<string>)
    requires end <= |h.prompts|
    requires var window := h.prompts[ScanStart(h, end, end, limit)..end];
      |Entries(h, window)| <= limit && Keeps(window, Entries(h, window), keep)
    ensures PageCovers(h, end, PageAt(h, end, limit), ScanStart(h, end, end, limit))
  {
    ScanReaches(h, end, end, limit);
    KeptVisible(h.prompts[ScanStart(h, end, end, limit)..end], keep);
    hide Entries, ScanStart, IndexOf, Visible, Kept, PromptsOf;
  }

  lemma CutPage(h: History, end: nat, limit: nat, keep: set<string>) returns (from: nat)
    requires h.Valid() && end <= |h.prompts|
    requires var window := h.prompts[ScanStart(h, end, end, limit)..end];
      |Entries(h, window)| > limit && Keeps(window, Entries(h, window), keep)
    ensures PageCovers(h, end, PageAt(h, end, limit), from)
  {
    hide *;
    var start := ScanStart(h, end, end, limit);
    var entries := Entries(h, h.prompts[start..end]);
    var k := if limit == 0 then 0 else |entries| - limit;
    var i := CutAt(h.prompts[start..end], entries, keep, k);
    from := start + i;
    SliceOfSlice(h.prompts, start, end, i);
    CutPageIs(h, end, limit, k);
    CursorFound(h, from);
    PageCoversIs(h, end, PageAt(h, end, limit), from);
  }

  lemma PageCoversIs(h: History, end: nat, page: Page, from: nat)
    requires from < end <= |h.prompts| && page.Page? && page.before.Some?
    requires Visible(PromptsOf(page.entries)) == Visible(h.prompts[from..end])
    requires EndOf(h.prompts, page.before) == Some(from)
    ensures PageCovers(h, end, page, from)
  {
  }

  lemma CutPageIs(h: History, end: nat, limit: nat, k: nat)
    requires end <= |h.prompts|
    requires var entries := Entries(h, h.prompts[ScanStart(h, end, end, limit)..end]);
      |entries| > limit && k == if limit == 0 then 0 else |entries| - limit
    ensures var entries := Entries(h, h.prompts[ScanStart(h, end, end, limit)..end]);
      k < |entries| && PageAt(h, end, limit) == Page(entries[k..], true, Some(entries[k].prompt.id))
  {
    hide Entries, ScanStart;
  }

  lemma CursorFound(h: History, from: nat)
    requires h.Valid() && from < |h.prompts|
    ensures EndOf(h.prompts, Some(h.prompts[from].id)) == Some(from)
  {
    IndexIs(h.prompts, from);
  }

  lemma SliceOfSlice<T>(s: seq<T>, start: nat, end: nat, i: nat)
    requires start + i < end <= |s|
    ensures s[start..end][i..] == s[start + i..end] && s[start..end][i] == s[start + i]
  {
  }

  lemma CutAt(window: seq<Prompt>, entries: seq<Entry>, keep: set<string>, k: nat) returns (i: nat)
    requires k < |entries| && Keeps(window, entries, keep)
    ensures i < |window| && entries[k].prompt == window[i]
    ensures Visible(PromptsOf(entries[k..])) == Visible(window[i..])
  {
    i := KeptSuffix(window, keep, k);
    KeptVisible(window[i..], keep);
    assert PromptsOf(entries[k..]) == PromptsOf(entries)[k..];
  }

  /** The scan only stops short of the oldest prompt when it has more entries than it needs. */
  lemma {:induction false} ScanReaches(h: History, start: nat, end: nat, limit: nat)
    requires start <= end <= |h.prompts|
    ensures var r := ScanStart(h, start, end, limit); r > 0 ==> |Entries(h, h.prompts[r..end])| > limit
    decreases start
  {
    if start > 0 {
      var next := if start > BatchSize(limit) then start - BatchSize(limit) else 0;
      hide Entries;
      ScanReaches(h, next, end, limit);
    }
  }

  /** All entries of the page at `end` and of the pages its cursors lead to, oldest first. */
  ghost function Followed(h: History, end: nat, limit: nat): seq<Entry>
    requires h.Valid() && end <= |h.prompts|
    decreases end
  {
    var page := PageAt(h, end, limit);
    if page.before.None? then page.entries
    else
      CursorMovesBack(h, end, limit);
      Followed(h, EndOf(h.prompts, page.before).value, limit) + page.entries
  }

  lemma CursorMovesBack(h: History, end: nat, limit: nat)
    requires h.Valid() && end <= |h.prompts| && PageAt(h, end, limit).before.Some?
    ensures var next := EndOf(h.prompts, PageAt(h, end, limit).before); next.Some? && next.value < end
  {
    var from := PageIsContiguous(h, end, limit);
  }

  /** Following the cursors from any page ends, and the pages together hold every replayable
      visible prompt before it exactly once, in order. */
  lemma {:induction false} PagesCoverHistory(h: History, end: nat, limit: nat)
    requires h.Valid() && end <= |h.prompts|
    ensures Visible(PromptsOf(Followed(h, end, limit))) == Visible(h.prompts[..end])
    decreases end
  {
    var from := PageIsContiguous(h, end, limit);
    var page := PageAt(h, end, limit);
    VisibleSplit(h.prompts, from, end);
    if page.before.Some? {
      assert from < end;
      PagesCoverHistory(h, from, limit);
      var older := Followed(h, from, limit);
      PromptsConcat(older, page.entries);
      VisibleConcat(PromptsOf(older), PromptsOf(page.entries));
      assert Followed(h, end, limit) == older + page.entries;
    }
    hide PageAt, Visible, PromptsOf, EndOf;
  }

  lemma VisibleSplit(ps: seq<Prompt>, from: nat, end: nat)
    requires from <= end <= |ps|
    ensures Visible(ps[..end]) == Visible(ps[..from]) + Visible(ps[from..end])
    ensures from == 0 ==> Visible(ps[..from]) == []
  {
    VisibleConcat(ps[..from], ps[from..end]);
    assert ps[..from] + ps[from..end] == ps[..end];
  }

  lemma NewestIsSuffix(entries: seq<Entry>, limit: nat)
    requires limit >= 1
    ensures var r := Newest(entries, limit);
      |r| <= limit && |r| <= |entries| && r == entries[|entries| - |r|..] && (|r| < |entries| <==> |entries| > limit)
  {
  }

  /** From one entry up, a page holds at most `limit` entries, the newest of its window, and
      says there are older ones exactly if it left some out; else the window is everything. */
  lemma HasOlderIsExact(h: History, end: nat, limit: nat)
    requires end <= |h.prompts| && limit >= 1
    ensures var page := PageAt(h, end, limit); var start := ScanStart(h, end, end, limit);
      var all := Entries(h, h.prompts[start..end]);
      && |page.entries| <= limit && |page.entries| <= |all|
      && page.entries == all[|all| - |page.entries|..]
      && (page.hasOlder <==> |page.entries| < |all|)
      && (!page.hasOlder ==> start == 0)
      && (page.before.Some? <==> page.hasOlder)
  {
    hide Entries, ScanStart, Newest;
    ScanReaches(h, end, end, limit);
    NewestIsSuffix(Entries(h, h.prompts[ScanStart(h, end, end, limit)..end]), limit);
  }

  /** A limit of zero is not a limit: the page shows everything it fetched, nothing visible missing,
      and claims there is more whenever it shows anything, even if it has reached the very start. */
  lemma ZeroLimitShowsAll(h: History, end: nat)
    requires end <= |h.prompts|
    ensures var page := PageAt(h, end, 0); var start := ScanStart(h, end, end, 0);
      && page.entries == Entries(h, h.prompts[start..end])
      && (page.hasOlder <==> page.entries != []) && (page.entries == [] ==> start == 0)
      && page.before == (if page.hasOlder then Some(page.entries[0].prompt.id) else None)
      && (h.Valid() ==> Visible(PromptsOf(page.entries)) == Visible(h.prompts[start..end]))
  {
    hide Entries, ScanStart, Visible, Kept, History.Valid;
    var start := ScanStart(h, end, end, 0);
    ScanReaches(h, end, end, 0);
    if h.Valid() {
      HistoryDistinct(h);
      WindowDistinct(h.prompts, start, end);
      var keep := EntriesKeep(h, h.prompts[start..end]);
      KeptVisible(h.prompts[start..end], keep);
    }
  }

  lemma HistoryDistinct(h: History)
    requires h.Valid()
    ensures DistinctPrompts(h.prompts)
  {
  }

  // ---- Which exchange an entry shows ----

  lemma {:induction false} ShownCarry(ps: seq<Prompt>, matches: map<string, Option<string>>)
    requires forall p :: p in ps ==> p.id in matches
    ensures forall e :: e in Shown(ps, matches) <==>
      e.prompt in ps && e.submission == matches[e.prompt.id] && (e.prompt.visible || e.submission.Some?)
  {
    if ps != [] {
      var front, last := ps[..|ps| - 1], ps[|ps| - 1];
      assert ps == front + [last] && last in ps;
      ShownCarry(front, matches);
    }
  }

  /** Every entry of a page shows the submission its prompt is matched with among the replayable prompts
      of the window and the events after the first of them, up to the snapshot; and all that a window
      has to show are its replayable prompts that are visible or have a submission. */
  lemma EntriesCarry(h: History, window: seq<Prompt>)
    requires DistinctPrompts(window)
    ensures var ps := Replayable(window);
      var after := if window != [] && window[0].offset.Some? then window[0].offset.value else -1;
      var matches := Correlated(ps, SnapshotOf(h.log, after, h.snapshot)).matches;
      && (forall p :: p in ps ==> p in window && p.replayable && p.id in matches)
      && (forall e :: e in Entries(h, window) <==>
            e.prompt in ps && e.submission == matches[e.prompt.id] && (e.prompt.visible || e.submission.Some?))
  {
    var ps, events := Replayable(window), EventsFor(h, window);
    ReplayableDistinct(window);
    EveryPromptAssignedOnce(ps, events);
    hide Correlated, Replayable, SnapshotOf, Shown, Sound, Extends, ExactPhase, AfterOffsets;
    forall p | p in ps ensures p.id in PromptIds(ps) {
      var i :| 0 <= i < |ps| && ps[i] == p;
    }
    ShownCarry(ps, Correlated(ps, events).matches);
  }

  lemma PageCarries(h: History, end: nat, limit: nat)
    requires end <= |h.prompts|
    ensures forall e :: e in PageAt(h, end, limit).entries ==>
      e in Entries(h, h.prompts[ScanStart(h, end, end, limit)..end])
  {
    hide Entries, ScanStart;
  }

  // ---- How far back a page looks ----

  /** So many batches before the end, and no further than the very start. */
  function Back(end: nat, batches: nat, limit: nat): (r: nat)
    ensures r <= end
  {
    if batches == 0 then end
    else
      var later := Back(end, batches - 1, limit);
      var batch := if limit + 1 < 100 then 100 else if limit + 1 > 1000 then 1000 else limit + 1;
      if later > batch then later - batch else 0
  }

  /** It fetches batch after batch until one brings more entries than asked for, or nothing is left. */
  lemma {:induction false} ScanFetches(h: History, end: nat, limit: nat, fetched: nat) returns (batches: nat)
    requires end <= |h.prompts|
    ensures batches >= fetched && ScanStart(h, Back(end, fetched, limit), end, limit) == Back(end, batches, limit)
    ensures Back(end, batches, limit) == 0 || |Entries(h, h.prompts[Back(end, batches, limit)..end])| > limit
    ensures batches > fetched ==> Back(end, fetched, limit) > 0
    ensures forall k :: fetched < k < batches ==>
      0 < Back(end, k, limit) && |Entries(h, h.prompts[Back(end, k, limit)..end])| <= limit
    decreases Back(end, fetched, limit)
  {
    hide Entries;
    var start := Back(end, fetched, limit);
    var next := Back(end, fetched + 1, limit);
    if start == 0 {
      batches := fetched;
    } else if |Entries(h, h.prompts[next..end])| > limit {
      batches := fetched + 1;
    } else {
      batches := ScanFetches(h, end, limit, fetched + 1);
    }
  }
}
