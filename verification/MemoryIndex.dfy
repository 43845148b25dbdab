/** The in-memory store with its inverted indexes over tags and titles. */
module MemoryIndex {
  import opened Basics
  import opened MemoryTypes
  import opened MemoryRanking

  type Records = map<string, Record>
  type Inverted = map<string, set<string>>

  // ---- What the indexes have to say ----

  function Tagged(norm: Normalize, byId: Records, key: string): set<string> {
    set id | id in byId && key in TagKeys(norm, byId[id])
  }

  function Titled(norm: Normalize, byId: Records, key: string): set<string> {
    set id | id in byId && norm(byId[id].title) == key
  }

  function At(index: Inverted, key: string): set<string> {
    if key in index then index[key] else {}
  }

  ghost predicate NoEmptySets(index: Inverted) {
    forall key :: key in index ==> index[key] != {}
  }

  ghost predicate KeysMatch(byId: Records) {
    forall id :: id in byId ==> byId[id].id == id
  }

  ghost predicate TagsAgree(norm: Normalize, byId: Records, index: Inverted) {
    NoEmptySets(index) && forall key :: At(index, key) == Tagged(norm, byId, key)
  }

  ghost predicate TitlesAgree(norm: Normalize, byId: Records, index: Inverted) {
    NoEmptySets(index) && forall key :: At(index, key) == Titled(norm, byId, key)
  }

  /** Later records replace earlier ones with the same id. */
  function Loaded(records: seq<Record>): Records {
    if records == [] then map[]
    else
      var last := records[|records| - 1];
      Loaded(records[..|records| - 1])[last.id := last]
  }

  // ---- One entry ----

  function WithEntry(index: Inverted, key: string, id: string): Inverted {
    index[key := At(index, key) + {id}]
  }

  /** A set that becomes empty disappears. */
  function WithoutEntry(index: Inverted, key: string, id: string): Inverted {
    if key !in index then index
    else
      var rest := index[key] - {id};
      if rest == {} then index - {key} else index[key := rest]
  }

  /** The index gained `id` under exactly these keys. */
  ghost predicate Gained(before: Inverted, after: Inverted, keys: set<string>, id: string) {
    NoEmptySets(after) && forall key :: At(after, key) == At(before, key) + (if key in keys then {id} else {})
  }

  ghost predicate Lost(before: Inverted, after: Inverted, keys: set<string>, id: string) {
    NoEmptySets(after) && forall key :: At(after, key) == At(before, key) - (if key in keys then {id} else {})
  }

  lemma EntryGained(index: Inverted, key: string, id: string)
    requires NoEmptySets(index)
    ensures Gained(index, WithEntry(index, key, id), {key}, id) && Gained(index, index, {}, id)
  {
  }

  lemma EntryLost(index: Inverted, key: string, id: string)
    requires NoEmptySets(index)
    ensures Lost(index, WithoutEntry(index, key, id), {key}, id) && Lost(index, index, {}, id)
  {
  }

  lemma GainedTwice(a: Inverted, b: Inverted, c: Inverted, keys: set<string>, key: string, id: string)
    requires Gained(a, b, keys, id) && Gained(b, c, {key}, id)
    ensures Gained(a, c, keys + {key}, id)
  {
  }

  lemma LostTwice(a: Inverted, b: Inverted, c: Inverted, keys: set<string>, key: string, id: string)
    requires Lost(a, b, keys, id) && Lost(b, c, {key}, id)
    ensures Lost(a, c, keys + {key}, id)
  {
  }

  lemma KeysOfNext(norm: Normalize, tags: seq<string>, i: nat)
    requires i < |tags|
    ensures KeysOf(norm, tags[..i + 1]) == KeysOf(norm, tags[..i]) + {norm(tags[i])}
  {
  }

  lemma InsertAgrees(norm: Normalize, byId: Records, r: Record, tags: Inverted, titles: Inverted,
                     tagsAfter: Inverted, titlesAfter: Inverted)
    requires r.id !in byId && KeysMatch(byId) && TagsAgree(norm, byId, tags) && TitlesAgree(norm, byId, titles)
    requires Gained(tags, tagsAfter, TagKeys(norm, r), r.id) && Gained(titles, titlesAfter, {norm(r.title)}, r.id)
    ensures var after := byId[r.id := r];
      KeysMatch(after) && TagsAgree(norm, after, tagsAfter) && TitlesAgree(norm, after, titlesAfter)
  {
    hide At, TagKeys;
    forall key ensures At(tagsAfter, key) == Tagged(norm, byId[r.id := r], key) {
      TaggedMore(norm, byId, r, key);
    }
    forall key ensures At(titlesAfter, key) == Titled(norm, byId[r.id := r], key) {
      TitledMore(norm, byId, r, key);
    }
    hide Tagged, Titled;
  }

  lemma TaggedMore(norm: Normalize, byId: Records, r: Record, key: string)
    requires r.id !in byId
    ensures Tagged(norm, byId[r.id := r], key) ==
            Tagged(norm, byId, key) + if key in TagKeys(norm, r) then {r.id} else {}
  {
    hide TagKeys;
  }

  lemma TitledMore(norm: Normalize, byId: Records, r: Record, key: string)
    requires r.id !in byId
    ensures Titled(norm, byId[r.id := r], key) == Titled(norm, byId, key) + if key == norm(r.title) then {r.id} else {}
  {
  }

  lemma RemoveAgrees(norm: Normalize, byId: Records, id: string, tags: Inverted, titles: Inverted,
                     tagsAfter: Inverted, titlesAfter: Inverted)
    requires id in byId && KeysMatch(byId) && TagsAgree(norm, byId, tags) && TitlesAgree(norm, byId, titles)
    requires Lost(tags, tagsAfter, TagKeys(norm, byId[id]), id)
    requires Lost(titles, titlesAfter, {norm(byId[id].title)}, id)
    ensures var after := byId - {id};
      KeysMatch(after) && TagsAgree(norm, after, tagsAfter) && TitlesAgree(norm, after, titlesAfter)
  {
    hide At, TagKeys;
    var after, r := byId - {id}, byId[id];
    forall key ensures At(tagsAfter, key) == Tagged(norm, after, key) {
      assert Tagged(norm, after, key) == Tagged(norm, byId, key) - if key in TagKeys(norm, r) then {id} else {};
    }
    forall key ensures At(titlesAfter, key) == Titled(norm, after, key) {
      assert Titled(norm, after, key) == Titled(norm, byId, key) - if key == norm(r.title) then {id} else {};
    }
  }

  class InMemoryIndex {
    const normalize: Normalize
    var byId: Records
    var tagIndex: Inverted
    var titleIndex: Inverted

    ghost predicate Valid()
      reads this
    {
      KeysMatch(byId) && TagsAgree(normalize, byId, tagIndex) && TitlesAgree(normalize, byId, titleIndex)
    }

    constructor (normalize: Normalize)
      ensures Valid() && byId == map[] && this.normalize == normalize
    {
      this.normalize := normalize;
      byId, tagIndex, titleIndex := map[], map[], map[];
    }

    /** An entry that exists is removed first, so that its old keys go away. */
    method Insert(record: Record)
      requires Valid()
      modifies this
      ensures Valid() && byId == old(byId)[record.id := record]
    {
      if record.id in byId {
        var _ := Remove(record.id);
      }
      Add(record);
    }

    method Add(record: Record)
      requires Valid() && record.id !in byId
      modifies this
      ensures Valid() && byId == old(byId)[record.id := record]
    {
      var titleKey := normalize(record.title);
      EntryGained(titleIndex, titleKey, record.id);
      titleIndex := WithEntry(titleIndex, titleKey, record.id);
      AddTags(record.tags, record.id);
      InsertAgrees(normalize, byId, record, old(tagIndex), old(titleIndex), tagIndex, titleIndex);
      byId := byId[record.id := record];
    }

    method AddTags(tags: seq<string>, id: string)
      requires NoEmptySets(tagIndex)
      modifies this`tagIndex
      ensures Gained(old(tagIndex), tagIndex, KeysOf(normalize, tags), id)
    {
      EntryGained(tagIndex, "", id);
      for i := 0 to |tags|
        invariant Gained(old(tagIndex), tagIndex, KeysOf(normalize, tags[..i]), id)
      {
        var key := normalize(tags[i]);
        EntryGained(tagIndex, key, id);
        GainedTwice(old(tagIndex), tagIndex, WithEntry(tagIndex, key, id), KeysOf(normalize, tags[..i]), key, id);
        KeysOfNext(normalize, tags, i);
        tagIndex := WithEntry(tagIndex, key, id);
      }
      assert tags[..|tags|] == tags;
    }

    method Remove(id: string) returns (removed: Option<Record>)
      requires Valid()
      modifies this
      ensures Valid() && byId == old(byId) - {id}
      ensures removed == if id in old(byId) then Some(old(byId)[id]) else None
    {
      if id !in byId {
        return None;
      }
      var record := byId[id];
      byId := byId - {id};
      var titleKey := normalize(record.title);
      EntryLost(titleIndex, titleKey, id);
      titleIndex := WithoutEntry(titleIndex, titleKey, id);
      DropTags(record.tags, id);
      RemoveAgrees(normalize, old(byId), id, old(tagIndex), old(titleIndex), tagIndex, titleIndex);
      removed := Some(record);
    }

    /** A tag that occurs twice is looked up again and no longer found. */
    method DropTags(tags: seq<string>, id: string)
      requires NoEmptySets(tagIndex)
      modifies this`tagIndex
      ensures Lost(old(tagIndex), tagIndex, KeysOf(normalize, tags), id)
    {
      EntryLost(tagIndex, "", id);
      for i := 0 to |tags|
        invariant Lost(old(tagIndex), tagIndex, KeysOf(normalize, tags[..i]), id)
      {
        var key := normalize(tags[i]);
        EntryLost(tagIndex, key, id);
        LostTwice(old(tagIndex), tagIndex, WithoutEntry(tagIndex, key, id), KeysOf(normalize, tags[..i]), key, id);
        KeysOfNext(normalize, tags, i);
        tagIndex := WithoutEntry(tagIndex, key, id);
      }
      assert tags[..|tags|] == tags;
    }

    /** Replace everything by a snapshot. */
    method Rebuild(records: seq<Record>)
      requires Valid()
      modifies this
      ensures Valid() && byId == Loaded(records)
    {
      byId, tagIndex, titleIndex := map[], map[], map[];
      for i := 0 to |records|
        invariant Valid() && byId == Loaded(records[..i])
      {
        assert records[..i + 1][..i] == records[..i];
        Insert(records[i]);
      }
      assert records[..|records|] == records;
    }
  }
}
