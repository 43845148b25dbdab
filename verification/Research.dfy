/** The budget of a web research run: queries, page fetches, context tokens. */
module Research {
  import opened Sorting

  /** A search result; `key` identifies its source, `url` says that its page could be fetched. */
  datatype Context = Context(key: string, url: bool, score: real, tokens: nat)

  // ---- Fetching pages, at most so many ----

  function Tokens(contexts: seq<Context>): nat {
    if contexts == [] then 0 else Tokens(contexts[..|contexts| - 1]) + contexts[|contexts| - 1].tokens
  }

  datatype Fetched = Failed | Empty | Content(tokens: nat)

  datatype Enriched = Enriched(contexts: seq<Context>, attempted: nat, succeeded: nat, failed: nat)

  function Fetchable(contexts: seq<Context>): nat {
    if contexts == [] then 0
    else Fetchable(contexts[..|contexts| - 1]) + if contexts[|contexts| - 1].url then 1 else 0
  }

  function Least(a: nat, b: nat): (r: nat)
    ensures r <= a && r <= b && (r == a || r == b)
  {
    if a <= b then a else b
  }

  /** A page is tried for every context that has one, until the cap is used up; only a page with content changes it. */
  function Enrich(contexts: seq<Context>, cap: nat, page: Context -> Fetched): Enriched {
    if contexts == [] then Enriched([], 0, 0, 0)
    else
      var before, last := Enrich(contexts[..|contexts| - 1], cap, page), contexts[|contexts| - 1];
      if !last.url || before.attempted >= cap then before.(contexts := before.contexts + [last])
      else
        var tried := before.(attempted := before.attempted + 1);
        match page(last)
        case Empty => tried.(contexts := before.contexts + [last])
        case Content(tokens) =>
          tried.(contexts := before.contexts + [Refreshed(last, tokens)], succeeded := before.succeeded + 1)
        case Failed => tried.(contexts := before.contexts + [last], failed := before.failed + 1)
  }

  function Refreshed(c: Context, tokens: nat): Context {
    c.(tokens := tokens, score := if c.score + 0.05 < 1.0 then c.score + 0.05 else 1.0)
  }

  method EnrichWebResults(contexts: seq<Context>, shouldFetch: bool, topK: int, page: Context -> Fetched)
    returns (r: Enriched)
    ensures r == if shouldFetch then Enrich(contexts, if topK > 0 then topK else 0, page)
                 else Enriched(contexts, 0, 0, 0)
  {
    if !shouldFetch {
      return Enriched(contexts, 0, 0, 0);
    }
    var attempted, succeeded, failed := 0, 0, 0;
    var out: seq<Context> := [];
    var remaining: nat := if topK > 0 then topK else 0;
    for i := 0 to |contexts|
      invariant Enriched(out, attempted, succeeded, failed) == Enrich(contexts[..i], remaining, page)
    {
      assert contexts[..i + 1][..i] == contexts[..i];
      var context := contexts[i];
      if context.url && attempted < remaining {
        attempted := attempted + 1;
        match page(context) {
          case Empty =>
          case Content(tokens) =>
            succeeded := succeeded + 1;
            context := Refreshed(context, tokens);
          case Failed =>
            failed := failed + 1;
        }
      }
      out := out + [context];
    }
    assert contexts[..|contexts|] == contexts;
    r := Enriched(out, attempted, succeeded, failed);
  }

  /** The n-th context is fetched if it can be and the cap is not used up by earlier ones. */
  predicate IsFetched(contexts: seq<Context>, n: nat, cap: nat)
    requires n < |contexts|
  {
    contexts[n].url && Fetchable(contexts[..n]) < cap
  }

  /** Exactly the first `cap` contexts with a page are tried, and no others change. */
  lemma {:induction false} FetchesTheFirst(contexts: seq<Context>, cap: nat, page: Context -> Fetched)
    ensures var r := Enrich(contexts, cap, page);
      && r.attempted == Least(cap, Fetchable(contexts)) && r.succeeded + r.failed <= r.attempted
      && |r.contexts| == |contexts|
      && forall i :: 0 <= i < |contexts| ==>
           r.contexts[i] == if IsFetched(contexts, i, cap) then AfterFetch(contexts[i], page) else contexts[i]
  {
    hide AfterFetch;
    if contexts != [] {
      var front, last := contexts[..|contexts| - 1], contexts[|contexts| - 1];
      FetchesTheFirst(front, cap, page);
      EnrichLast(front, last, cap, page);
      assert contexts == front + [last];
      forall i | 0 <= i < |front| ensures IsFetched(contexts, i, cap) == IsFetched(front, i, cap) {
        assert contexts[..i] == front[..i];
      }
    }
  }

  /** A page with content brings its tokens and a little more score, up to 1; nothing else changes. */
  lemma FetchedContext(c: Context, page: Context -> Fetched)
    ensures var after := AfterFetch(c, page);
      && after.key == c.key && after.url == c.url
      && (page(c).Content? ==>
            && after.tokens == page(c).tokens
            && (c.score <= 0.95 ==> after.score == c.score + 0.05) && (c.score > 0.95 ==> after.score == 1.0))
      && (!page(c).Content? ==> after == c)
  {
  }

  datatype Answer = Any | Page | Failure

  predicate Such(answer: Answer, f: Fetched) {
    answer.Any? || (answer.Page? && f.Content?) || (answer.Failure? && f.Failed?)
  }

  /** How many of the first so many contexts are tried with such an answer. */
  function Answered(contexts: seq<Context>, cap: nat, page: Context -> Fetched, n: nat, such: Answer): nat
    requires n <= |contexts|
  {
    if n == 0 then 0
    else
      Answered(contexts, cap, page, n - 1, such)
      + if IsFetched(contexts, n - 1, cap) && Such(such, page(contexts[n - 1])) then 1 else 0
  }

  lemma {:induction false} CountsSoFar(contexts: seq<Context>, cap: nat, page: Context -> Fetched, n: nat)
    requires n <= |contexts|
    ensures var r := Enrich(contexts[..n], cap, page);
      && r.attempted == Answered(contexts, cap, page, n, Any)
      && r.succeeded == Answered(contexts, cap, page, n, Page)
      && r.failed == Answered(contexts, cap, page, n, Failure)
  {
    if n > 0 {
      var front, last := contexts[..n - 1], contexts[n - 1];
      CountsSoFar(contexts, cap, page, n - 1);
      FetchesTheFirst(front, cap, page);
      EnrichLast(front, last, cap, page);
      assert contexts[..n] == front + [last];
      hide Enrich;
    }
  }

  /** What is reported: how many were tried, how many brought content, how many failed. */
  lemma FetchCounts(contexts: seq<Context>, cap: nat, page: Context -> Fetched)
    ensures var r, n := Enrich(contexts, cap, page), |contexts|;
      && r.attempted == Answered(contexts, cap, page, n, Any)
      && r.succeeded == Answered(contexts, cap, page, n, Page)
      && r.failed == Answered(contexts, cap, page, n, Failure)
  {
    assert contexts[..|contexts|] == contexts;
    CountsSoFar(contexts, cap, page, |contexts|);
    hide Enrich, Answered;
  }

  function AfterFetch(c: Context, page: Context -> Fetched): Context {
    if page(c).Content? then Refreshed(c, page(c).tokens) else c
  }

  lemma EnrichLast(front: seq<Context>, last: Context, cap: nat, page: Context -> Fetched)
    ensures var before, r := Enrich(front, cap, page), Enrich(front + [last], cap, page);
      var tried := last.url && before.attempted < cap;
      && r.attempted == before.attempted + (if tried then 1 else 0)
      && r.succeeded == before.succeeded + (if tried && page(last).Content? then 1 else 0)
      && r.failed == before.failed + (if tried && page(last).Failed? then 1 else 0)
      && r.contexts == before.contexts + [if tried then AfterFetch(last, page) else last]
  {
    assert (front + [last])[..|front|] == front;
  }

  // ---- One retrieval: search, fetch, pack ----

  /** What the web answers: the results of the n-th query, whether pages are fetched for it,
      the pages, and how many tokens are left of a text that is cut short. */
  datatype Web = Web(
    found: nat -> seq<Context>, fetches: nat -> bool, page: (nat, Context) -> Fetched,
    shorten: (Context, nat) -> nat, maxContextTokens: int)

  function Budget(maxTokens: int): nat {
    if maxTokens > 1 then maxTokens else 1
  }

  /** Contexts in order, the last ones cut to what is left of the budget, or omitted. */
  function Pack(contexts: seq<Context>, budget: nat, shorten: (Context, nat) -> nat): seq<Context> {
    if contexts == [] then []
    else
      var c := contexts[0];
      var kept := Kept(c, budget, shorten);
      if c.tokens > budget && kept == 0 then Pack(contexts[1..], budget, shorten)
      else [c.(tokens := kept)] + Pack(contexts[1..], budget - kept, shorten)
  }

  function Kept(c: Context, budget: nat, shorten: (Context, nat) -> nat): (r: nat)
    ensures r <= budget
  {
    if c.tokens <= budget then c.tokens else Least(budget, shorten(c, budget))
  }

  method PackContexts(contexts: seq<Context>, budget: nat, shorten: (Context, nat) -> nat)
    returns (packed: seq<Context>)
    ensures packed == Pack(contexts, budget, shorten)
  {
    packed := [];
    var remaining: nat := budget;
    NoTokens();
    hide Pack, Least, Tokens;
    PackNone(budget, shorten);
    for i := 0 to |contexts|
      invariant packed == Pack(contexts[..i], budget, shorten) && Tokens(packed) + remaining == budget
    {
      var c := contexts[i];
      assert contexts[..i + 1] == contexts[..i] + [c];
      PackAppends(contexts[..i], c, budget, shorten);
      TokensLast(packed);
      if c.tokens <= remaining {
        packed := packed + [c];
        remaining := remaining - c.tokens;
      } else {
        var kept := Least(remaining, shorten(c, remaining));
        if kept > 0 {
          packed := packed + [c.(tokens := kept)];
          remaining := remaining - kept;
        }
      }
    }
    assert contexts[..|contexts|] == contexts;
  }

  lemma PackNone(budget: nat, shorten: (Context, nat) -> nat)
    ensures Pack([], budget, shorten) == []
  {
  }

  lemma TokensLast(packed: seq<Context>)
    ensures forall c :: Tokens(packed + [c]) == Tokens(packed) + c.tokens
  {
    forall c ensures Tokens(packed + [c]) == Tokens(packed) + c.tokens {
      TokensMore(packed, c);
    }
  }

  datatype Evidence = Evidence(contexts: seq<Context>, fetches: nat)

  /** A retrieval hands its cap to the fetcher, and reports what the fetcher tried. */
  function Retrieved(web: Web, n: nat, topK: nat): Evidence {
    var found := web.found(n);
    var enriched := if web.fetches(n) then Enrich(found, topK, c => web.page(n, c)) else Enriched(found, 0, 0, 0);
    Evidence(Pack(enriched.contexts, Budget(web.maxContextTokens), web.shorten), enriched.attempted)
  }

  method RetrieveContext(web: Web, n: nat, topK: nat) returns (r: Evidence)
    ensures r == Retrieved(web, n, topK)
  {
    var enriched := EnrichWebResults(web.found(n), web.fetches(n), topK, c => web.page(n, c));
    var contexts := PackContexts(enriched.contexts, Budget(web.maxContextTokens), web.shorten);
    r := Evidence(contexts, enriched.attempted);
  }

  /** So no retrieval tries more pages than it was given, and it returns no more than its token budget. */
  lemma RetrievalKeepsCap(web: Web, n: nat, topK: nat)
    ensures var r := Retrieved(web, n, topK);
      r.fetches <= topK && r.fetches <= Fetchable(web.found(n)) && Tokens(r.contexts) <= Budget(web.maxContextTokens)
  {
    FetchesTheFirst(web.found(n), topK, c => web.page(n, c));
    var enriched := if web.fetches(n) then Enrich(web.found(n), topK, c => web.page(n, c))
                    else Enriched(web.found(n), 0, 0, 0);
    PackFits(enriched.contexts, Budget(web.maxContextTokens), web.shorten);
  }

  lemma {:induction false} PackFits(contexts: seq<Context>, budget: nat, shorten: (Context, nat) -> nat)
    ensures Tokens(Pack(contexts, budget, shorten)) <= budget
  {
    if contexts != [] {
      var c := contexts[0];
      var kept := Kept(c, budget, shorten);
      PackFits(contexts[1..], budget, shorten);
      PackFits(contexts[1..], budget - kept, shorten);
      TokensFirst(c.(tokens := kept), Pack(contexts[1..], budget - kept, shorten));
    }
  }

  /** Packed one by one: each context whole if it fits into what is left, else shortened to it, and
      omitted only if nothing of it remains. */
  lemma PackAppends(contexts: seq<Context>, c: Context, budget: nat, shorten: (Context, nat) -> nat)
    ensures var packed := Pack(contexts, budget, shorten);
      var left: int := budget - Tokens(packed);
      && left >= 0
      && Pack(contexts + [c], budget, shorten) ==
           if c.tokens <= left then packed + [c]
           else if left == 0 || shorten(c, left) == 0 then packed
           else packed + [c.(tokens := if shorten(c, left) < left then shorten(c, left) else left)]
  {
    hide Pack, Tokens;
    PackFits(contexts, budget, shorten);
    AddedLast(contexts, c, budget, shorten);
  }

  /** What one context adds when so much is left. */
  function Added(c: Context, left: nat, shorten: (Context, nat) -> nat): seq<Context> {
    if c.tokens > left && Kept(c, left, shorten) == 0 then [] else [c.(tokens := Kept(c, left, shorten))]
  }

  lemma {:induction false} AddedLast(contexts: seq<Context>, c: Context, budget: nat, shorten: (Context, nat) -> nat)
    ensures var packed := Pack(contexts, budget, shorten);
      && Tokens(packed) <= budget
      && Pack(contexts + [c], budget, shorten) == packed + Added(c, budget - Tokens(packed), shorten)
  {
    hide *;
    PackFits(contexts, budget, shorten);
    if contexts == [] {
      AddedAlone(c, budget, shorten);
    } else {
      var first, rest := contexts[0], contexts[1..];
      SplitFirst(contexts, c);
      AddedFirst(first, rest, budget, shorten);
      AddedLast(rest, c, budget - Tokens(Added(first, budget, shorten)), shorten);
      AddedBoth(first, rest, c, budget, shorten);
    }
  }

  lemma SplitFirst(contexts: seq<Context>, c: Context)
    requires contexts != []
    ensures contexts == [contexts[0]] + contexts[1..] && contexts + [c] == [contexts[0]] + (contexts[1..] + [c])
  {
  }

  lemma AddedAlone(c: Context, budget: nat, shorten: (Context, nat) -> nat)
    ensures Tokens([]) == 0 && Pack([], budget, shorten) == []
    ensures Pack([] + [c], budget, shorten) == [] + Added(c, budget - 0, shorten)
  {
    AddedFirst(c, [], budget, shorten);
    NoTokens();
    PackNone(budget, shorten);
    PackNone(budget - Tokens(Added(c, budget, shorten)), shorten);
    assert [] + [c] == [c] + [];
    hide Added, Pack, Tokens;
  }

  lemma AddedBoth(first: Context, rest: seq<Context>, c: Context, budget: nat, shorten: (Context, nat) -> nat)
    requires var left: int := budget - Tokens(Added(first, budget, shorten));
      && left >= 0 && Tokens(Pack(rest, left, shorten)) <= left
      && Pack(rest + [c], left, shorten) ==
           Pack(rest, left, shorten) + Added(c, left - Tokens(Pack(rest, left, shorten)), shorten)
    ensures var packed := Pack([first] + rest, budget, shorten);
      && Tokens(packed) <= budget
      && Pack([first] + (rest + [c]), budget, shorten) == packed + Added(c, budget - Tokens(packed), shorten)
  {
    hide *;
    var added := Added(first, budget, shorten);
    AddedFirst(first, rest, budget, shorten);
    AddedFirst(first, rest + [c], budget, shorten);
    TokensConcat(added, Pack(rest, budget - Tokens(added), shorten));
  }

  lemma AddedFirst(first: Context, rest: seq<Context>, budget: nat, shorten: (Context, nat) -> nat)
    ensures var added := Added(first, budget, shorten);
      && Tokens(added) <= budget
      && Pack([first] + rest, budget, shorten) == added + Pack(rest, budget - Tokens(added), shorten)
  {
    var one := first.(tokens := Kept(first, budget, shorten));
    NoTokens();
    TokensFirst(one, []);
    assert [one] + [] == [one];
    PackFirst(first, rest, budget, shorten);
    hide Tokens, Pack, Kept;
  }

  lemma PackFirst(first: Context, rest: seq<Context>, budget: nat, shorten: (Context, nat) -> nat)
    ensures var kept := Kept(first, budget, shorten);
      Pack([first] + rest, budget, shorten) ==
        if first.tokens > budget && kept == 0 then Pack(rest, budget, shorten)
        else [first.(tokens := kept)] + Pack(rest, budget - kept, shorten)
  {
    assert ([first] + rest)[1..] == rest;
  }

  lemma {:induction false} TokensConcat(a: seq<Context>, b: seq<Context>)
    ensures Tokens(a + b) == Tokens(a) + Tokens(b)
  {
    if b == [] {
      assert a + b == a;
    } else {
      var front := b[..|b| - 1];
      assert (a + b)[..|a + b| - 1] == a + front;
      TokensConcat(a, front);
    }
  }

  lemma NoTokens()
    ensures Tokens([]) == 0
  {
  }

  lemma {:induction false} TokensFirst(c: Context, rest: seq<Context>)
    ensures Tokens([c] + rest) == c.tokens + Tokens(rest)
  {
    if rest == [] {
      assert [c] + rest == [c] && [c][..0] == [];
    } else {
      var last := |rest| - 1;
      assert ([c] + rest)[..|rest|] == [c] + rest[..last];
      TokensFirst(c, rest[..last]);
    }
  }

  // ---- The loop ----

  datatype Settings = Settings(
    deep: bool, complexRequest: bool, maxQueries: nat, maxFetches: nat, minSources: nat, maxIterations: nat)

  function SourceKeys(contexts: seq<Context>): set<string> {
    set i | 0 <= i < |contexts| :: contexts[i].key
  }

  predicate HasEnoughEvidence(contexts: seq<Context>, searches: nat, s: Settings) {
    var sources := |SourceKeys(contexts)|;
    && sources > 0 && sources >= s.minSources
    && (if s.deep then searches >= Least(2, s.maxQueries)
        else if s.complexRequest then searches >= 2 else true)
  }

  /** What the first n queries of the plan bring in, each given the fetches the earlier ones left. */
  function Gathered(web: Web, maxFetches: nat, n: nat): Evidence {
    if n == 0 then Evidence([], 0)
    else
      var before := Gathered(web, maxFetches, n - 1);
      var left := if before.fetches < maxFetches then maxFetches - before.fetches else 0;
      var found := Retrieved(web, n - 1, left);
      Evidence(before.contexts + found.contexts, before.fetches + found.fetches)
  }

  /** Over a whole run the pages tried never exceed the budget, however many results there are. */
  lemma {:induction false} FetchesStayWithinBudget(web: Web, maxFetches: nat, n: nat)
    ensures Gathered(web, maxFetches, n).fetches <= maxFetches
  {
    hide Retrieved;
    if n > 0 {
      var before := Gathered(web, maxFetches, n - 1);
      FetchesStayWithinBudget(web, maxFetches, n - 1);
      RetrievalKeepsCap(web, n - 1, maxFetches - before.fetches);
    }
  }

  /** The rounded-up share of each iteration. */
  function Share(total: nat, iterations: nat): nat
    requires iterations > 0
  {
    (total + iterations - 1) / iterations
  }

  lemma SharesCover(total: nat, iterations: nat)
    requires iterations > 0
    ensures iterations * Share(total, iterations) >= total
    ensures Share(total, iterations) > 0 ==> iterations * (Share(total, iterations) - 1) < total
  {
    var k := total + iterations - 1;
    assert k == iterations * (k / iterations) + k % iterations;
    assert iterations * (k / iterations - 1) == iterations * (k / iterations) - iterations;
  }

  /** All queries in one iteration, or in deep research the rounded-up share, at least one. */
  function PerIteration(total: nat, s: Settings): nat
    requires s.maxIterations >= 1
  {
    var rounded := Share(total, s.maxIterations);
    if !s.deep then total else if rounded > 1 then rounded else 1
  }

  lemma MoreIterations(a: nat, b: nat, share: nat)
    requires a <= b
    ensures a * share <= b * share && (a + 1) * share == a * share + share
  {
  }

  /** Not one of the counts from `from` up to, but excluding, `to` brought enough. */
  ghost predicate NoneEnough(web: Web, s: Settings, from: nat, to: nat) {
    forall k :: from < k < to ==> !EnoughAfter(web, s, k)
  }

  predicate EnoughAfter(web: Web, s: Settings, n: nat) {
    HasEnoughEvidence(Gathered(web, s.maxFetches, n).contexts, n, s)
  }

  /** Enough is: as many sources as asked for, and at least one; and in deep research two searches, or all
      that are allowed, and for a complex request two searches. */
  lemma EnoughMeans(web: Web, s: Settings, n: nat)
    ensures EnoughAfter(web, s, n) <==>
      var sources := set i | 0 <= i < |Gathered(web, s.maxFetches, n).contexts| ::
                       Gathered(web, s.maxFetches, n).contexts[i].key;
      && |sources| >= 1 && |sources| >= s.minSources
      && (s.deep ==> n >= 2 || n >= s.maxQueries) && (!s.deep && s.complexRequest ==> n >= 2)
  {
    hide Gathered;
  }

  /** The queries of one iteration, up to the first that brings enough. */
  method RunIteration(plan: seq<string>, s: Settings, web: Web, start: nat, end: nat, gathered: Evidence)
    returns (searchIndex: nat, evidence: Evidence, enough: bool)
    requires start <= end <= |plan| && gathered == Gathered(web, s.maxFetches, start)
    ensures start <= searchIndex <= end && (enough ==> start < searchIndex) && (!enough ==> searchIndex == end)
    ensures evidence == Gathered(web, s.maxFetches, searchIndex)
    ensures NoneEnough(web, s, start, if enough then searchIndex else end + 1)
    ensures enough ==> EnoughAfter(web, s, searchIndex)
  {
    hide HasEnoughEvidence, Retrieved, Least;
    searchIndex, evidence, enough := start, gathered, false;
    while searchIndex < end
      invariant start <= searchIndex <= end
      invariant evidence == Gathered(web, s.maxFetches, searchIndex)
      invariant NoneEnough(web, s, start, searchIndex + 1)
    {
      var remaining := if s.maxFetches > evidence.fetches then s.maxFetches - evidence.fetches else 0;
      var result := RetrieveContext(web, searchIndex, remaining);
      evidence := Evidence(evidence.contexts + result.contexts, evidence.fetches + result.fetches);
      searchIndex := searchIndex + 1;
      if HasEnoughEvidence(evidence.contexts, searchIndex, s) {
        return searchIndex, evidence, true;
      }
    }
  }

  /** The fetches never exceed their budget; the queries run are the plan's, in order, from the
      first; and the run stops exactly at the first query after which there is enough evidence,
      or else has run the whole plan, however few iterations it may make. */
  method RunWebResearch(plan: seq<string>, s: Settings, web: Web)
    returns (queriesRun: seq<string>, evidence: Evidence, iterationsRun: nat, contexts: seq<Context>)
    requires s.maxIterations >= 1
    ensures queriesRun <= plan && iterationsRun <= s.maxIterations
    ensures evidence == Gathered(web, s.maxFetches, |queriesRun|) && evidence.fetches <= s.maxFetches
    ensures NoneEnough(web, s, 0, |queriesRun|)
    ensures |queriesRun| == |plan| || EnoughAfter(web, s, |queriesRun|)
    ensures Rounds(iterationsRun, PerIteration(|plan|, s), |queriesRun|)
    ensures Packing(evidence.contexts, contexts) && Maximal(evidence.contexts, contexts, Budget(web.maxContextTokens))
    ensures Tokens(contexts) <= Budget(web.maxContextTokens)
  {
    hide HasEnoughEvidence, EnoughAfter, Packing, Retrieved, Rounds, PerIteration, Share, Maximal;
    FirstRound(PerIteration(|plan|, s));
    var searchIndex: nat, enough := 0, false;
    evidence, iterationsRun := Evidence([], 0), 0;
    var share := PerIteration(|plan|, s);
    EnoughIterations(|plan|, s);
    while searchIndex < |plan| && iterationsRun < s.maxIterations && !enough
      invariant searchIndex <= |plan| && iterationsRun <= s.maxIterations
      invariant !enough ==> searchIndex == Least(|plan|, iterationsRun * share)
      invariant Rounds(iterationsRun, share, searchIndex)
      invariant evidence == Gathered(web, s.maxFetches, searchIndex)
      invariant NoneEnough(web, s, 0, if enough then searchIndex else searchIndex + 1)
      invariant enough ==> EnoughAfter(web, s, searchIndex)
      decreases s.maxIterations - iterationsRun
    {
      ghost var start := searchIndex;
      searchIndex, evidence, enough :=
        RunIteration(plan, s, web, searchIndex, Least(|plan|, searchIndex + share), evidence);
      NextRound(|plan|, iterationsRun, share, start, searchIndex, enough);
      iterationsRun := iterationsRun + 1;
    }
    queriesRun := plan[..searchIndex];
    contexts := PackUniqueContexts(evidence.contexts, web.maxContextTokens);
    FetchesStayWithinBudget(web, s.maxFetches, searchIndex);
  }

  /** So many rounds of the share reach the end of the plan. */
  lemma EnoughIterations(total: nat, s: Settings)
    requires s.maxIterations >= 1
    ensures s.maxIterations * PerIteration(total, s) >= total && PerIteration(total, s) >= if total > 0 then 1 else 0
  {
    SharesCover(total, s.maxIterations);
    MoreIterations(1, s.maxIterations, total);
    ShareGrows(s.maxIterations, if s.deep then Share(total, s.maxIterations) else total, PerIteration(total, s));
  }

  lemma FirstRound(share: nat)
    ensures Rounds(0, share, 0) && 0 * share == 0
  {
  }

  /** The queries fill so many rounds of the share, the last one perhaps in part. */
  predicate Rounds(iterations: nat, share: nat, queries: nat) {
    (queries > 0 ==> (iterations - 1) * share < queries) && queries <= iterations * share
  }

  lemma NextRound(total: nat, iterations: nat, share: nat, start: nat, next: nat, enough: bool)
    requires start == Least(total, iterations * share) && start < total && share >= 1
    requires start <= next <= Least(total, start + share) && (enough ==> start < next)
    requires !enough ==> next == Least(total, start + share)
    ensures Rounds(iterations + 1, share, next) && (!enough ==> next == Least(total, (iterations + 1) * share))
  {
    MoreIterations(iterations, iterations + 1, share);
  }

  lemma ShareGrows(iterations: nat, share: nat, larger: nat)
    requires share <= larger
    ensures iterations * share <= iterations * larger
  {
  }

  // ---- Packing what was found ----

  predicate ScoreLeq(a: Context, b: Context) { a.score >= b.score }

  /** Chosen from the first so many sorted contexts: sources once, best scores first, each by its best context. */
  ghost predicate Packing(done: seq<Context>, packed: seq<Context>) {
    && (forall c :: c in packed ==> c in done)
    && SortedBy(ScoreLeq, packed)
    && (forall i, j :: 0 <= i < j < |packed| ==> packed[i].key != packed[j].key)
    && (forall c, d | c in packed && d in done :: d.key == c.key ==> d.score <= c.score)
  }

  lemma PackingSkips(done: seq<Context>, packed: seq<Context>, next: Context)
    requires Packing(done, packed) && SortedBy(ScoreLeq, done + [next])
    ensures Packing(done + [next], packed)
  {
    forall c | c in packed ensures next.score <= c.score {
      var i :| 0 <= i < |done| && done[i] == c;
      assert (done + [next])[i] == c && (done + [next])[|done|] == next;
      assert ScoreLeq((done + [next])[i], (done + [next])[|done|]);
    }
  }

  lemma PackingTakes(done: seq<Context>, packed: seq<Context>, next: Context)
    requires Packing(done, packed) && SortedBy(ScoreLeq, done + [next]) && next.key !in SourceKeys(done)
    ensures Packing(done + [next], packed + [next]) && Tokens(packed + [next]) == Tokens(packed) + next.tokens
  {
    PackingSkips(done, packed, next);
    assert (packed + [next])[..|packed|] == packed;
    assert forall d :: d in done ==> d.key in SourceKeys(done);
    forall c | c in packed ensures ScoreLeq(c, next) {
      assert next in done + [next];
      var i :| 0 <= i < |done| && done[i] == c;
      assert ScoreLeq((done + [next])[i], (done + [next])[|done|]);
    }
  }

  lemma SortedPrefix(s: seq<Context>, i: nat)
    requires i < |s| && SortedBy(ScoreLeq, s)
    ensures s[..i + 1] == s[..i] + [s[i]] && SortedBy(ScoreLeq, s[..i] + [s[i]])
    ensures SourceKeys(s[..i + 1]) == SourceKeys(s[..i]) + {s[i].key}
  {
    var t := s[..i + 1];
    assert t == s[..i] + [s[i]];
    forall k | k in SourceKeys(t) ensures k in SourceKeys(s[..i]) + {s[i].key} {
      var j :| 0 <= j < |t| && t[j].key == k;
      if j < i {
        assert s[..i][j].key == k;
      }
    }
    forall k | k in SourceKeys(s[..i]) ensures k in SourceKeys(t) {
      var j :| 0 <= j < i && s[..i][j].key == k;
      assert t[j].key == k;
    }
    assert t[i].key == s[i].key;
  }

  /** The i-th context is the first of its source. */
  predicate FirstOfSource(sorted: seq<Context>, i: nat)
    requires i < |sorted|
  {
    forall j :: 0 <= j < i ==> sorted[j].key != sorted[i].key
  }

  /** Of the packed contexts, n come before the i-th. It is the next one if it fits into what those
      leave of the budget; otherwise its source is left out. */
  ghost predicate Decided(sorted: seq<Context>, packed: seq<Context>, budget: nat, i: nat, n: nat)
    requires i < |sorted|
  {
    && n <= |packed| && (forall c :: c in packed[..n] ==> c in sorted[..i])
    && if Tokens(packed[..n]) + sorted[i].tokens <= budget then n < |packed| && packed[n] == sorted[i]
       else forall c :: c in packed ==> c.key != sorted[i].key
  }

  /** All sources found are decided so, each by its first context. */
  ghost predicate Greedy(sorted: seq<Context>, packed: seq<Context>, budget: nat, upTo: nat)
    requires upTo <= |sorted|
  {
    forall i :: 0 <= i < upTo && FirstOfSource(sorted, i) ==> exists n :: Decided(sorted, packed, budget, i, n)
  }

  /** The tokens of the first contexts of all sources among the first so many. */
  function FirstTokens(sorted: seq<Context>, upTo: nat): nat
    requires upTo <= |sorted|
  {
    if upTo == 0 then 0
    else FirstTokens(sorted, upTo - 1) + if FirstOfSource(sorted, upTo - 1) then sorted[upTo - 1].tokens else 0
  }

  lemma {:induction false} FirstTokensGrow(sorted: seq<Context>, i: nat, j: nat)
    requires i <= j <= |sorted|
    ensures FirstTokens(sorted, i) <= FirstTokens(sorted, j)
    decreases j
  {
    if i < j {
      FirstTokensGrow(sorted, i, j - 1);
    }
  }

  lemma FirstIffUnseen(sorted: seq<Context>, i: nat)
    requires i < |sorted|
    ensures FirstOfSource(sorted, i) <==> sorted[i].key !in SourceKeys(sorted[..i])
  {
    if j :| 0 <= j < i && sorted[j].key == sorted[i].key {
      assert sorted[..i][j].key == sorted[i].key;
    }
  }

  lemma StaysDecided(sorted: seq<Context>, packed: seq<Context>, budget: nat, i: nat, n: nat, next: Context)
    requires i < |sorted| && Decided(sorted, packed, budget, i, n) && next.key != sorted[i].key
    ensures Decided(sorted, packed + [next], budget, i, n)
  {
    assert (packed + [next])[..n] == packed[..n];
  }

  lemma GreedySkips(sorted: seq<Context>, packed: seq<Context>, budget: nat, i: nat)
    requires i < |sorted| && Greedy(sorted, packed, budget, i) && forall c :: c in packed ==> c in sorted[..i]
    requires sorted[i].key in SourceKeys(sorted[..i]) || Tokens(packed) + sorted[i].tokens > budget
    ensures Greedy(sorted, packed, budget, i + 1)
  {
    FirstIffUnseen(sorted, i);
    if FirstOfSource(sorted, i) {
      assert packed[..|packed|] == packed;
      forall c | c in packed ensures c.key != sorted[i].key {
        var j :| 0 <= j < i && sorted[..i][j] == c;
      }
      assert Decided(sorted, packed, budget, i, |packed|);
    }
  }

  lemma GreedyTakes(sorted: seq<Context>, packed: seq<Context>, budget: nat, i: nat)
    requires i < |sorted| && Greedy(sorted, packed, budget, i) && forall c :: c in packed ==> c in sorted[..i]
    requires sorted[i].key !in SourceKeys(sorted[..i]) && Tokens(packed) + sorted[i].tokens <= budget
    ensures Greedy(sorted, packed + [sorted[i]], budget, i + 1)
  {
    forall j | 0 <= j < i + 1 && FirstOfSource(sorted, j)
      ensures exists n :: Decided(sorted, packed + [sorted[i]], budget, j, n)
    {
      if j < i {
        var n :| Decided(sorted, packed, budget, j, n);
        FirstIffUnseen(sorted, i);
        StaysDecided(sorted, packed, budget, j, n, sorted[i]);
      } else {
        assert (packed + [sorted[i]])[..|packed|] == packed;
        assert Decided(sorted, packed + [sorted[i]], budget, i, |packed|);
      }
    }
  }

  /** Nothing is left out that fits, and nothing at all if the first contexts of all sources fit together. */
  ghost predicate Maximal(contexts: seq<Context>, packed: seq<Context>, budget: nat) {
    var sorted := SortBy(ScoreLeq, contexts);
    && Greedy(sorted, packed, budget, |sorted|)
    && (FirstTokens(sorted, |sorted|) <= budget ==> SourceKeys(packed) == SourceKeys(contexts))
  }

  /** What is packed after the first so many sorted contexts. */
  ghost predicate PackedSoFar(sorted: seq<Context>, packed: seq<Context>, budget: nat, i: nat)
    requires i <= |sorted|
  {
    && Packing(sorted[..i], packed) && Greedy(sorted, packed, budget, i)
    && Tokens(packed) <= budget && Tokens(packed) <= FirstTokens(sorted, i)
    && (FirstTokens(sorted, |sorted|) <= budget ==> SourceKeys(packed) == SourceKeys(sorted[..i]))
  }

  lemma PacksNext(sorted: seq<Context>, packed: seq<Context>, budget: nat, i: nat)
    requires i < |sorted| && PackedSoFar(sorted, packed, budget, i) && SortedBy(ScoreLeq, sorted)
    ensures var left := sorted[i].key in SourceKeys(sorted[..i]) || Tokens(packed) + sorted[i].tokens > budget;
      PackedSoFar(sorted, if left then packed else packed + [sorted[i]], budget, i + 1)
  {
    hide SourceKeys, Greedy, SortedBy, ScoreLeq, FirstOfSource;
    var next := sorted[i];
    SortedPrefix(sorted, i);
    FirstIffUnseen(sorted, i);
    FirstTokensGrow(sorted, i + 1, |sorted|);
    if next.key in SourceKeys(sorted[..i]) || Tokens(packed) + next.tokens > budget {
      PackingSkips(sorted[..i], packed, next);
      GreedySkips(sorted, packed, budget, i);
    } else {
      PackingTakes(sorted[..i], packed, next);
      GreedyTakes(sorted, packed, budget, i);
      KeysMore(packed, next);
    }
  }

  lemma KeysMore(packed: seq<Context>, next: Context)
    ensures SourceKeys(packed + [next]) == SourceKeys(packed) + {next.key}
  {
    var more := packed + [next];
    forall k | k in SourceKeys(packed) + {next.key} ensures k in SourceKeys(more) {
      if i :| 0 <= i < |packed| && packed[i].key == k {
        assert more[i].key == k;
      } else {
        assert more[|packed|].key == k;
      }
    }
  }

  /** Within the token budget, and nothing left out that fits. */
  method PackUniqueContexts(contexts: seq<Context>, maxTokens: int) returns (packed: seq<Context>)
    ensures Tokens(packed) <= Budget(maxTokens)
    ensures Packing(contexts, packed)
    ensures Maximal(contexts, packed, Budget(maxTokens))
  {
    hide *;
    var sorted := SortBy(ScoreLeq, contexts);
    ScoresSort(contexts);
    var seen: set<string> := {};
    packed := [];
    var budget: nat := Budget(maxTokens);
    var remaining: nat := budget;
    NothingPacked(sorted, budget);
    for i := 0 to |sorted|
      invariant seen == SourceKeys(sorted[..i])
      invariant Tokens(packed) + remaining == budget
      invariant PackedSoFar(sorted, packed, budget, i)
    {
      var context := sorted[i];
      SortedPrefix(sorted, i);
      PacksNext(sorted, packed, budget, i);
      if context.key !in seen && context.tokens <= remaining {
        TokensMore(packed, context);
        packed := packed + [context];
        remaining := remaining - context.tokens;
      }
      seen := seen + {context.key};
    }
    assert sorted[..|sorted|] == sorted;
    AllPacked(contexts, sorted, packed, budget);
  }

  lemma TokensMore(packed: seq<Context>, next: Context)
    ensures Tokens(packed + [next]) == Tokens(packed) + next.tokens
  {
    assert (packed + [next])[..|packed|] == packed;
  }

  lemma AllPacked(contexts: seq<Context>, sorted: seq<Context>, packed: seq<Context>, budget: nat)
    requires sorted == SortBy(ScoreLeq, contexts) && sorted[..|sorted|] == sorted
    requires PackedSoFar(sorted, packed, budget, |sorted|)
    ensures Packing(contexts, packed) && Tokens(packed) <= budget && Maximal(contexts, packed, budget)
  {
    hide Packing, Greedy, SortedBy;
    SortBySorts(ScoreLeq, contexts);
    PackingOfAll(contexts, sorted, packed);
    SameKeys(contexts, sorted);
  }

  lemma SameKeys(contexts: seq<Context>, sorted: seq<Context>)
    requires multiset(contexts) == multiset(sorted)
    ensures SourceKeys(contexts) == SourceKeys(sorted)
  {
    forall c ensures c in sorted <==> c in contexts {
      assert c in multiset(sorted) <==> c in multiset(contexts);
    }
    forall k | k in SourceKeys(contexts) ensures k in SourceKeys(sorted) {
      var i :| 0 <= i < |contexts| && contexts[i].key == k;
      assert contexts[i] in sorted;
    }
    forall k | k in SourceKeys(sorted) ensures k in SourceKeys(contexts) {
      var i :| 0 <= i < |sorted| && sorted[i].key == k;
      assert sorted[i] in contexts;
    }
  }

  lemma ScoresSort(contexts: seq<Context>)
    ensures SortedBy(ScoreLeq, SortBy(ScoreLeq, contexts))
  {
    SortBySorts(ScoreLeq, contexts);
  }

  lemma NothingPacked(sorted: seq<Context>, budget: nat)
    ensures SourceKeys(sorted[..0]) == {} && Tokens([]) == 0 && PackedSoFar(sorted, [], budget, 0)
  {
  }

  lemma PackingOfAll(contexts: seq<Context>, sorted: seq<Context>, packed: seq<Context>)
    requires multiset(contexts) == multiset(sorted) && Packing(sorted, packed)
    ensures Packing(contexts, packed)
  {
    forall c ensures c in sorted <==> c in contexts {
      assert c in multiset(sorted) <==> c in multiset(contexts);
    }
  }
}
