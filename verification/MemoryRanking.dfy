/** How records are scored and ranked. */
module MemoryRanking {
  import opened MemoryTypes
  import opened Sorting

  type Normalize = string -> string

  // ---- Scores, as exact fractions ----

  function KeysOf(norm: Normalize, tags: seq<string>): set<string> {
    set i | 0 <= i < |tags| :: norm(tags[i])
  }

  function TagKeys(norm: Normalize, r: Record): set<string> {
    KeysOf(norm, r.tags)
  }

  function Normalized(norm: Normalize, words: seq<string>): (r: seq<string>)
    ensures |r| == |words| && forall i :: 0 <= i < |r| ==> r[i] == norm(words[i])
  {
    seq(|words|, i requires 0 <= i < |words| => norm(words[i]))
  }

  function Hits(wanted: seq<string>, have: set<string>): (n: nat)
    ensures n <= |wanted|
    ensures n > 0 <==> exists i :: 0 <= i < |wanted| && wanted[i] in have
  {
    if wanted == [] then 0
    else
      var last := |wanted| - 1;
      Hits(wanted[..last], have) + if wanted[last] in have then 1 else 0
  }

  function Fraction(part: nat, whole: nat): (r: real)
    requires part <= whole && whole > 0
    ensures 0.0 <= r <= 1.0 && (r > 0.0 <==> part > 0)
  {
    part as real / whole as real
  }

  /** The fraction of the query's tags that the record carries. */
  function TagScore(norm: Normalize, r: Record, tags: seq<string>): (score: real)
    ensures 0.0 <= score <= 1.0
    ensures score > 0.0 <==> exists i :: 0 <= i < |tags| && norm(tags[i]) in TagKeys(norm, r)
  {
    if tags == [] then 0.0 else Fraction(Hits(Normalized(norm, tags), TagKeys(norm, r)), |tags|)
  }

  predicate OccursAt(text: string, word: string, i: nat) {
    i + |word| <= |text| && text[i..i + |word|] == word
  }

  predicate Contains(text: string, word: string) {
    exists i :: 0 <= i <= |text| && OccursAt(text, word, i)
  }

  function WordHits(text: string, words: seq<string>): (n: nat)
    ensures n <= |words|
    ensures n > 0 <==> exists i :: 0 <= i < |words| && Contains(text, words[i])
  {
    if words == [] then 0
    else
      var last := |words| - 1;
      WordHits(text, words[..last]) + if Contains(text, words[last]) then 1 else 0
  }

  /** 1 for a single word that is the whole title, else 0.7 of the fraction found in the title. */
  function KeywordScore(norm: Normalize, r: Record, words: seq<string>): (score: real)
    ensures 0.0 <= score <= 1.0
    ensures score > 0.0 <==> exists i :: 0 <= i < |words| && Contains(norm(r.title), words[i])
    ensures score > 7.0 / 10.0 <==> words == [norm(r.title)]
  {
    var title := norm(r.title);
    if words == [] then 0.0
    else if |words| == 1 && title == words[0] then
      assert OccursAt(title, words[0], 0);
      1.0
    else
      assert words != [title];
      Fraction(WordHits(title, words), |words|) * (7.0 / 10.0)
  }

  // ---- What the scores count ----

  lemma {:induction false} HitsAre(wanted: seq<string>, have: set<string>)
    ensures Hits(wanted, have) == |set i | 0 <= i < |wanted| && wanted[i] in have|
  {
    if wanted != [] {
      var last := |wanted| - 1;
      HitsAre(wanted[..last], have);
      var before := set i | 0 <= i < |wanted[..last]| && wanted[..last][i] in have;
      var all := set i | 0 <= i < |wanted| && wanted[i] in have;
      assert all == before + if wanted[last] in have then {last} else {};
    }
  }

  lemma {:induction false} WordHitsAre(text: string, words: seq<string>)
    ensures WordHits(text, words) == |set i | 0 <= i < |words| && Contains(text, words[i])|
  {
    if words != [] {
      var last := |words| - 1;
      WordHitsAre(text, words[..last]);
      var before := set i | 0 <= i < |words[..last]| && Contains(text, words[..last][i]);
      var all := set i | 0 <= i < |words| && Contains(text, words[i]);
      assert all == before + if Contains(text, words[last]) then {last} else {};
    }
  }

  /** The query's tags that are, once normalized, among the record's. */
  function Shared(norm: Normalize, r: Record, tags: seq<string>): set<int> {
    set i | 0 <= i < |tags| && norm(tags[i]) in (set j | 0 <= j < |r.tags| :: norm(r.tags[j]))
  }

  /** The score is the number of the query's tags on the record, out of all of the query's tags. */
  lemma TagScoreCounts(norm: Normalize, r: Record, tags: seq<string>)
    requires tags != []
    ensures TagScore(norm, r, tags) * |tags| as real == |Shared(norm, r, tags)| as real
  {
    var wanted, have := Normalized(norm, tags), TagKeys(norm, r);
    HitsAre(wanted, have);
    hide Normalized, TagKeys, Hits;
    SharedAre(norm, r, tags);
  }

  lemma SharedAre(norm: Normalize, r: Record, tags: seq<string>)
    ensures var wanted := Normalized(norm, tags);
      Shared(norm, r, tags) == set i | 0 <= i < |wanted| && wanted[i] in TagKeys(norm, r)
  {
  }

  /** And so it is with the words in the title, at seven tenths, unless the title is the word. */
  lemma KeywordScoreCounts(norm: Normalize, r: Record, words: seq<string>)
    requires words != []
    ensures words == [norm(r.title)] ==> KeywordScore(norm, r, words) == 1.0
    ensures words != [norm(r.title)] ==>
      KeywordScore(norm, r, words) * |words| as real
      == 0.7 * |set i | 0 <= i < |words| && Contains(norm(r.title), words[i])| as real
  {
    WordHitsAre(norm(r.title), words);
  }

  // ---- Strings in byte order ----

  predicate StringLeq(a: string, b: string) {
    a == "" || (b != "" && (a[0] < b[0] || (a[0] == b[0] && StringLeq(a[1..], b[1..]))))
  }

  /** A prefix comes first; otherwise the first difference decides. */
  lemma {:induction false} StringLeqIff(a: string, b: string)
    ensures StringLeq(a, b) <==> exists k :: Differ(a, b, k)
  {
    if a != "" && b != "" && a[0] == b[0] {
      StringLeqIff(a[1..], b[1..]);
      if k: nat :| Differ(a[1..], b[1..], k) {
        assert a[..k + 1] == [a[0]] + a[1..][..k] && b[..k + 1] == [b[0]] + b[1..][..k];
        assert Differ(a, b, k + 1);
      }
      if k: nat :| Differ(a, b, k) {
        assert k > 0 && a[1..][..k - 1] == a[..k][1..] && b[1..][..k - 1] == b[..k][1..];
        assert Differ(a[1..], b[1..], k - 1);
      }
    } else {
      assert a[..0] == b[..0];
      assert StringLeq(a, b) ==> Differ(a, b, 0);
    }
  }

  /** They agree on so many characters, where the first ends or has the smaller one. */
  predicate Differ(a: string, b: string, k: nat) {
    k <= |a| && k <= |b| && a[..k] == b[..k] && (k == |a| || (k < |b| && a[k] < b[k]))
  }

  lemma {:induction false} StringTotal(a: string, b: string)
    ensures StringLeq(a, b) || StringLeq(b, a)
    ensures StringLeq(a, b) && StringLeq(b, a) ==> a == b
  {
    if a != "" && b != "" && a[0] == b[0] {
      StringTotal(a[1..], b[1..]);
      assert a == [a[0]] + a[1..] && b == [b[0]] + b[1..];
    }
  }

  lemma {:induction false} StringTransitive(a: string, b: string, c: string)
    requires StringLeq(a, b) && StringLeq(b, c)
    ensures StringLeq(a, c)
  {
    if a != "" && b != "" && c != "" && a[0] == b[0] == c[0] {
      StringTransitive(a[1..], b[1..], c[1..]);
    }
  }

  // ---- The ranking: score down, last change down, id up ----

  datatype Ranked = Ranked(record: Record, score: real)

  predicate NewestLeq(a: Record, b: Record) {
    StringLeq(b.updatedAt, a.updatedAt) && (a.updatedAt == b.updatedAt ==> StringLeq(a.id, b.id))
  }

  predicate RankLeq(a: Ranked, b: Ranked) {
    a.score > b.score || (a.score == b.score && NewestLeq(a.record, b.record))
  }

  predicate ScoreLeq(a: Ranked, b: Ranked) {
    a.score >= b.score
  }

  lemma NewestTotal(a: Record, b: Record)
    ensures NewestLeq(a, b) || NewestLeq(b, a)
    ensures NewestLeq(a, b) && NewestLeq(b, a) ==> a.id == b.id
  {
    StringTotal(a.updatedAt, b.updatedAt);
    StringTotal(a.id, b.id);
  }

  lemma NewestTransitive(a: Record, b: Record, c: Record)
    requires NewestLeq(a, b) && NewestLeq(b, c)
    ensures NewestLeq(a, c)
  {
    StringTransitive(c.updatedAt, b.updatedAt, a.updatedAt);
    StringTotal(a.updatedAt, b.updatedAt);
    if a.updatedAt == c.updatedAt {
      StringTotal(b.updatedAt, a.updatedAt);
      StringTransitive(a.id, b.id, c.id);
    }
  }

  lemma RanksAreTotal()
    ensures TotalOn(RankLeq) && TotalOn(NewestLeq) && TotalOn(ScoreLeq)
  {
    forall a, b ensures NewestLeq(a, b) || NewestLeq(b, a) {
      NewestTotal(a, b);
    }
    forall a, b, c | NewestLeq(a, b) && NewestLeq(b, c) ensures NewestLeq(a, c) {
      NewestTransitive(a, b, c);
    }
  }
}
