/** The query planner and the tag lookup, against a scan of all records. */
module MemoryQuery {
  import opened Basics
  import opened MemoryTypes
  import opened Sorting
  import opened MemoryRanking
  import opened MemoryIndex

  const DEFAULT_LIMIT: nat := 20
  const HARD_CAP: nat := 100

  /** `words` is the query text, trimmed, split and lower-cased. */
  datatype QueryInput = QueryInput(
    scope: Scope, words: seq<string>, kinds: seq<string>, tags: seq<string>,
    limit: Option<nat>, includeArchived: bool)
  {
    function Limit(): nat {
      var asked := if limit.Some? then limit.value else DEFAULT_LIMIT;
      if asked < HARD_CAP then asked else HARD_CAP
    }

    predicate Scores() { words != [] || tags != [] }
  }

  predicate Passes(q: QueryInput, r: Record) {
    && (q.includeArchived || !r.IsArchived())
    && (q.kinds == [] || r.Kind() in q.kinds)
    && Matches(r.scope, q.scope)
  }

  function Score(norm: Normalize, q: QueryInput, r: Record): real {
    var kw, tag := KeywordScore(norm, r, q.words), TagScore(norm, r, q.tags);
    if kw >= tag then kw else tag
  }

  // ---- The answer as a property of the record set ----

  /** Some order in which a hash map may list its values. */
  ghost predicate Enumerates(order: seq<Record>, byId: Records) {
    NoDup(order) && forall r :: r in order <==> r.id in byId && byId[r.id] == r
  }

  ghost predicate Qualifies(norm: Normalize, byId: Records, q: QueryInput, x: Ranked) {
    var r := x.record;
    && r.id in byId && byId[r.id] == r && Passes(q, r)
    && (if q.Scores() then x.score == Score(norm, q, r) && x.score > 0.0 else x.score == 0.0)
  }

  ghost predicate FullRanking(norm: Normalize, byId: Records, q: QueryInput, full: seq<Ranked>) {
    SortedBy(RankLeq, full) && NoDup(full) && forall x :: x in full <==> Qualifies(norm, byId, q, x)
  }

  function RecordsOf(s: seq<Ranked>): (r: seq<Record>)
    ensures |r| == |s| && forall i :: 0 <= i < |r| ==> r[i] == s[i].record
  {
    seq(|s|, i requires 0 <= i < |s| => s[i].record)
  }

  function Truncated<T>(s: seq<T>, limit: nat): seq<T> {
    if |s| <= limit then s else s[..limit]
  }

  /** The first so many of all qualifying records, ranked. */
  ghost predicate Answers(norm: Normalize, byId: Records, q: QueryInput, out: seq<Record>) {
    exists full :: FullRanking(norm, byId, q, full) && out == Truncated(RecordsOf(full), q.Limit())
  }

  lemma RankingIsUnique(norm: Normalize, byId: Records, q: QueryInput, a: seq<Ranked>, b: seq<Ranked>)
    requires FullRanking(norm, byId, q, a) && FullRanking(norm, byId, q, b)
    ensures a == b
  {
    SameMultiset(a, b);
    RanksAreTotal();
    forall x, y | x in a && y in a && RankLeq(x, y) && RankLeq(y, x) ensures x == y {
      assert Qualifies(norm, byId, q, x) && Qualifies(norm, byId, q, y);
      NewestTotal(x.record, y.record);
    }
    SortedOnce(RankLeq, a, b);
  }

  /** The answer is a function of the records alone: the order in which the map lists
      them, and with it the history of the map, never shows. */
  lemma AnswerIgnoresOrder(norm: Normalize, byId: Records, q: QueryInput, a: seq<Record>, b: seq<Record>)
    requires Answers(norm, byId, q, a) && Answers(norm, byId, q, b)
    ensures a == b
  {
    var full :| FullRanking(norm, byId, q, full) && a == Truncated(RecordsOf(full), q.Limit());
    var other :| FullRanking(norm, byId, q, other) && b == Truncated(RecordsOf(other), q.Limit());
    RankingIsUnique(norm, byId, q, full, other);
  }

  // ---- What an answer says ----

  /** Not archived, unless archived ones are wanted; of a wanted kind, if any is named; and visible. */
  predicate Wanted(q: QueryInput, r: Record) {
    && (q.includeArchived || (r.archivedAt.None? && (r.Todo? || !r.archived)))
    && (q.kinds == [] || r.Kind() in q.kinds) && Matches(r.scope, q.scope)
  }

  /** The better of the two scores; 0 for all if nothing is searched for. */
  function BestScore(norm: Normalize, q: QueryInput, r: Record): real {
    var words, tags := KeywordScore(norm, r, q.words), TagScore(norm, r, q.tags);
    if q.words == [] && q.tags == [] then 0.0 else if words < tags then tags else words
  }

  predicate Found(norm: Normalize, byId: Records, q: QueryInput, r: Record) {
    && r.id in byId && byId[r.id] == r && Wanted(q, r)
    && ((q.words == [] && q.tags == []) || BestScore(norm, q, r) > 0.0)
  }

  /** Higher scores first, then later changes, then smaller ids. */
  predicate Before(norm: Normalize, q: QueryInput, a: Record, b: Record) {
    var x, y := BestScore(norm, q, a), BestScore(norm, q, b);
    || x > y
    || (x == y && a.updatedAt != b.updatedAt && StringLeq(b.updatedAt, a.updatedAt))
    || (x == y && a.updatedAt == b.updatedAt && StringLeq(a.id, b.id))
  }

  /** How many are asked for: 20 if nothing is said, and never more than 100. */
  function Asked(q: QueryInput): nat {
    match q.limit
    case None => 20
    case Some(n) => if n > 100 then 100 else n
  }

  /** Records that are found, in order; and whatever is found and left out comes after all of them,
      which are as many as asked for. */
  lemma AnswerSays(norm: Normalize, byId: Records, q: QueryInput, out: seq<Record>)
    requires Answers(norm, byId, q, out)
    ensures |out| <= Asked(q) && NoDup(out)
    ensures forall i :: 0 <= i < |out| ==> Found(norm, byId, q, out[i])
    ensures forall i, j :: 0 <= i < j < |out| ==> Before(norm, q, out[i], out[j])
    ensures forall r :: Found(norm, byId, q, r) && r !in out ==>
      |out| == Asked(q) && forall i :: 0 <= i < |out| ==> Before(norm, q, out[i], r)
  {
    hide KeywordScore, TagScore, Matches, StringLeq;
    var full: seq<Ranked> :| FullRanking(norm, byId, q, full) && out == Truncated(RecordsOf(full), q.Limit());
    forall i | 0 <= i < |full|
      ensures Found(norm, byId, q, full[i].record) && full[i].score == BestScore(norm, q, full[i].record)
    {
      assert full[i] in full;
    }
    forall i, j | 0 <= i < j < |full|
      ensures Before(norm, q, full[i].record, full[j].record) && full[i].record != full[j].record
    {
      assert RankLeq(full[i], full[j]);
      StringTotal(full[i].record.updatedAt, full[j].record.updatedAt);
    }
    forall r | Found(norm, byId, q, r) ensures exists k :: 0 <= k < |full| && full[k].record == r {
      assert Ranked(r, BestScore(norm, q, r)) in full;
    }
  }

  // ---- The planner ----

  lemma NoDupMore<T>(s: seq<T>, x: T)
    requires NoDup(s) && x !in s
    ensures NoDup(s + [x])
  {
  }

  lemma PrefixNext<T>(s: seq<T>, i: nat)
    requires i < |s| && NoDup(s)
    ensures s[i] !in s[..i] && forall x :: x in s[..i + 1] <==> x in s[..i] || x == s[i]
  {
  }

  method Filter(order: seq<Record>, q: QueryInput) returns (candidates: seq<Record>)
    requires NoDup(order)
    ensures NoDup(candidates) && forall r :: r in candidates <==> r in order && Passes(q, r)
  {
    candidates := [];
    for i := 0 to |order|
      invariant NoDup(candidates) && forall r :: r in candidates <==> r in order[..i] && Passes(q, r)
    {
      PrefixNext(order, i);
      if Passes(q, order[i]) {
        NoDupMore(candidates, order[i]);
        candidates := candidates + [order[i]];
      }
    }
    assert order[..|order|] == order;
  }

  method ScoreAll(norm: Normalize, candidates: seq<Record>, q: QueryInput) returns (scored: seq<Ranked>)
    requires NoDup(candidates)
    ensures NoDup(scored)
    ensures forall x :: x in scored <==> x.record in candidates && x.score == Score(norm, q, x.record) && x.score > 0.0
  {
    scored := [];
    for i := 0 to |candidates|
      invariant NoDup(scored)
      invariant forall x :: x in scored <==>
        x.record in candidates[..i] && x.score == Score(norm, q, x.record) && x.score > 0.0
    {
      PrefixNext(candidates, i);
      var base := Score(norm, q, candidates[i]);
      if base > 0.0 {
        NoDupMore(scored, Ranked(candidates[i], base));
        scored := scored + [Ranked(candidates[i], base)];
      }
    }
    assert candidates[..|candidates|] == candidates;
  }

  function Unscored(s: seq<Record>): (r: seq<Ranked>)
    ensures |r| == |s| && forall i :: 0 <= i < |r| ==> r[i] == Ranked(s[i], 0.0)
  {
    seq(|s|, i requires 0 <= i < |s| => Ranked(s[i], 0.0))
  }

  lemma SortedKeeps<T(!new)>(leq: Leq<T>, s: seq<T>)
    requires TotalOn(leq) && NoDup(s)
    ensures var r := SortBy(leq, s); SortedBy(leq, r) && NoDup(r) && forall x :: x in r <==> x in s
  {
    SortBySorts(leq, s);
    StillNoDup(s, SortBy(leq, s));
  }

  lemma NewestRanking(s: seq<Record>)
    requires SortedBy(NewestLeq, s) && NoDup(s)
    ensures var full := Unscored(s);
      && SortedBy(RankLeq, full) && NoDup(full) && RecordsOf(full) == s
      && forall x :: x in full <==> x.record in s && x.score == 0.0
  {
    var full := Unscored(s);
    forall x ensures x in full <==> x.record in s && x.score == 0.0 {
      if x.record in s && x.score == 0.0 {
        var i :| 0 <= i < |s| && s[i] == x.record;
        assert full[i] == x;
      }
    }
  }

  method RunQuery(norm: Normalize, ghost byId: Records, order: seq<Record>, q: QueryInput)
    returns (records: seq<Record>, totalScanned: nat)
    requires KeysMatch(byId) && Enumerates(order, byId)
    ensures Answers(norm, byId, q, records)
    ensures totalScanned == |set id | id in byId && Passes(q, byId[id])|
  {
    RanksAreTotal();
    var candidates := Filter(order, q);
    totalScanned := |candidates|;
    CountCandidates(byId, candidates, q);
    if q.Scores() {
      var scored := ScoreAll(norm, candidates, q);
      SortedKeeps(RankLeq, scored);
      scored := SortBy(RankLeq, scored);
      assert FullRanking(norm, byId, q, scored);
      records := RecordsOf(scored);
    } else {
      SortedKeeps(NewestLeq, candidates);
      candidates := SortBy(NewestLeq, candidates);
      NewestRanking(candidates);
      assert FullRanking(norm, byId, q, Unscored(candidates));
      records := candidates;
    }
    records := Truncated(records, q.Limit());
  }

  lemma CountCandidates(byId: Records, candidates: seq<Record>, q: QueryInput)
    requires NoDup(candidates)
    requires forall r :: r in candidates <==> r.id in byId && byId[r.id] == r && Passes(q, r)
    requires forall id :: id in byId ==> byId[id].id == id
    ensures |candidates| == |set id | id in byId && Passes(q, byId[id])|
  {
    CountIds(candidates, set id | id in byId && Passes(q, byId[id]));
  }

  lemma {:induction false} CountIds(s: seq<Record>, ids: set<string>)
    requires NoDup(s) && forall r, t | r in s && t in s :: r.id == t.id ==> r == t
    requires forall id :: id in ids <==> exists r :: r in s && r.id == id
    ensures |s| == |ids|
  {
    if s != [] {
      var last := s[|s| - 1];
      var rest := s[..|s| - 1];
      assert s == rest + [last];
      forall id ensures id in ids - {last.id} <==> exists r :: r in rest && r.id == id {
        if id in ids - {last.id} {
          var r :| r in s && r.id == id;
          assert r in rest;
        }
      }
      CountIds(rest, ids - {last.id});
    } else {
      assert ids == {};
    }
  }

  // ---- Tag lookup through the inverted index ----

  /** Walk only the ids the index lists under the query's tags. */
  method Candidates(index: InMemoryIndex, keys: seq<string>) returns (ids: set<string>)
    requires index.Valid()
    ensures ids == set id | id in index.byId
                            && exists i :: 0 <= i < |keys| && keys[i] in TagKeys(index.normalize, index.byId[id])
  {
    ids := {};
    for i := 0 to |keys|
      invariant forall id :: id in ids <==>
        id in index.byId && exists j :: 0 <= j < i && keys[j] in TagKeys(index.normalize, index.byId[id])
    {
      var key := keys[i];
      assert At(index.tagIndex, key) == Tagged(index.normalize, index.byId, key);
      if key in index.tagIndex {
        ids := ids + index.tagIndex[key];
      }
    }
  }

  /** What a scan of every record would keep. */
  ghost predicate TagMatch(norm: Normalize, byId: Records, tags: seq<string>, x: Ranked) {
    x.record.id in byId && byId[x.record.id] == x.record && x.score == TagScore(norm, x.record, tags) && x.score > 0.0
  }

  /** The highest scores of a full scan; ties may fall either way. */
  ghost predicate BestMatches(norm: Normalize, byId: Records, tags: seq<string>, limit: nat, out: seq<Ranked>) {
    exists full :: out == Truncated(full, limit) && SortedBy(ScoreLeq, full) && NoDup(full)
                   && forall x :: x in full <==> TagMatch(norm, byId, tags, x)
  }

  /** Records sharing a tag with the query, by falling score; and what is left out scores no higher
      than any of them, which are then as many as asked for. */
  lemma BestMatchesSay(norm: Normalize, byId: Records, tags: seq<string>, limit: nat, out: seq<Ranked>)
    requires BestMatches(norm, byId, tags, limit, out)
    ensures |out| <= limit && NoDup(out) && forall i :: 0 <= i < |out| ==> TagMatch(norm, byId, tags, out[i])
    ensures forall i, j :: 0 <= i < j < |out| ==> out[i].score >= out[j].score
    ensures forall x :: TagMatch(norm, byId, tags, x) && x !in out ==>
      |out| == limit && forall i :: 0 <= i < |out| ==> out[i].score >= x.score
  {
    var full: seq<Ranked> :|
      out == Truncated(full, limit) && SortedBy(ScoreLeq, full) && NoDup(full)
      && forall x :: x in full <==> TagMatch(norm, byId, tags, x);
    hide TagMatch;
    forall i, j | 0 <= i < j < |full| ensures full[i].score >= full[j].score {
      assert ScoreLeq(full[i], full[j]);
    }
  }

  method QueryTags(index: InMemoryIndex, tags: seq<string>, limit: nat) returns (out: seq<Ranked>)
    requires index.Valid()
    ensures BestMatches(index.normalize, index.byId, tags, limit, out)
  {
    var ids := Candidates(index, Normalized(index.normalize, tags));
    var scored: seq<Ranked> := [];
    ghost var all := ids;
    while ids != {}
      invariant ids <= all && NoDup(scored)
      invariant forall x :: x in scored <==>
        x.record.id in all - ids && TagMatch(index.normalize, index.byId, tags, x)
      decreases ids
    {
      var id :| id in ids;
      ids := ids - {id};
      var x := Ranked(index.byId[id], TagScore(index.normalize, index.byId[id], tags));
      if x.score > 0.0 {
        NoDupMore(scored, x);
        scored := scored + [x];
      }
    }
    assert forall x :: TagMatch(index.normalize, index.byId, tags, x) ==> x.record.id in all;
    RanksAreTotal();
    SortedKeeps(ScoreLeq, scored);
    out := Truncated(SortBy(ScoreLeq, scored), limit);
  }
}
