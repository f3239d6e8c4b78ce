/** src/TagIdCache.ts (with the message of src/TagIdNotFoundError.ts): a trie
    from a tag's canonical string to its id in the backing store. */
module TagIdCaches {
  import opened Wrappers
  import opened Optionals
  import opened Filters
  import opened Tries

  /** The message of `new TagIdNotFoundError(key)`. */
  function NotFoundMessage(key: string): (m: string)
    ensures |key| < |m| && m[|m| - |key|..] == key
  {
    "Tag not found: " + key
  }

  /** `tagToString`: `key` for a `Tag`, `key:value` for a `MetaTag`. Only the
      tag with the empty key has the empty canonical string. */
  function TagToString(tag: Filter): (s: string)
    requires tag.IsLeafTag()
    ensures s == "" <==> tag == Tag("")
  {
    if tag.Tag? then tag.key else tag.key + ":" + tag.value
  }

  /** One element of the array given to `init`. */
  datatype TagPair = TagPair(tag: Filter, tagId: string)

  predicate AllLeafTags(pairs: seq<TagPair>) {
    forall i :: 0 <= i < |pairs| ==> pairs[i].tag.IsLeafTag()
  }

  /** `tagToTagId` on the value of the trie: the id stored under the tag's
      canonical key, or the not-found error naming that key. */
  function ResolveTagId(t: Node, tag: Filter): (r: Result<string, string>)
    requires tag.IsLeafTag()
    ensures r.Success? <==> t.Lookup(TagToString(tag)).Present?
    ensures r.Success? ==> r.value == t.Lookup(TagToString(tag)).value
    ensures r.Failure? ==> r.error == NotFoundMessage(TagToString(tag))
  {
    var id := t.Lookup(TagToString(tag));
    if !id.IsPresent() then Failure(NotFoundMessage(TagToString(tag))) else id.Get()
  }

  /** `onTagAdded` on the value of the trie: insert unless the canonical key
      is empty. */
  function AddTag(t: Node, tag: Filter, tagId: string): (r: Node)
    requires tag.IsLeafTag()
    ensures r.prefix == t.prefix
    ensures WellFormed(t) ==> WellFormed(r)
  {
    var name := TagToString(tag);
    if name == "" then t
    else
      assert WellFormed(t) ==> WellFormed(t.Insert(name, tagId)) by {
        if WellFormed(t) { InsertPreservesWellFormed(t, name, tagId); }
      }
      t.Insert(name, tagId)
  }

  /** `init` on the value of the trie: `onTagAdded` for each pair in order. */
  function InitTags(t: Node, pairs: seq<TagPair>): (r: Node)
    requires AllLeafTags(pairs)
    ensures r.prefix == t.prefix
    ensures WellFormed(t) ==> WellFormed(r)
    decreases |pairs|
  {
    if pairs == [] then t
    else
      var last := pairs[|pairs| - 1];
      AddTag(InitTags(t, pairs[..|pairs| - 1]), last.tag, last.tagId)
  }

  /** Reference answer after `init(pairs)`: the id of the LAST pair whose
      non-empty canonical key is stored at the same slot as `key`. */
  function LatestId(pairs: seq<TagPair>, key: string): Optional<string>
    requires AllLeafTags(pairs)
    decreases |pairs|
  {
    if pairs == [] then Absent
    else
      var last := pairs[|pairs| - 1];
      var name := TagToString(last.tag);
      if name != "" && Slot(name) == Slot(key) then Present(last.tagId)
      else LatestId(pairs[..|pairs| - 1], key)
  }

  // ----- lemmas -------------------------------------------------------------

  /** An empty cache misses every tag with "Tag not found: <key>". */
  lemma EmptyCacheMisses(tag: Filter)
    requires tag.IsLeafTag()
    ensures ResolveTagId(Leaf(""), tag) == Failure(NotFoundMessage(TagToString(tag)))
  {
    LeafLookup("", TagToString(tag));
  }

  /** After `onTagAdded(tag, id)`, exactly the tags whose canonical key shares
      the slot of `tag`'s resolve to `id`; all others resolve as before. */
  lemma ResolveAfterAdd(t: Node, tag: Filter, tagId: string, tag': Filter)
    requires t.prefix == "" && tag.IsLeafTag() && tag'.IsLeafTag()
    ensures ResolveTagId(AddTag(t, tag, tagId), tag') ==
              if TagToString(tag) != "" && Slot(TagToString(tag)) == Slot(TagToString(tag'))
              then Success(tagId) else ResolveTagId(t, tag')
  {
    if TagToString(tag) != "" {
      RootLookupAfterInsert(t, TagToString(tag), tagId, TagToString(tag'));
    }
  }

  /** `init(pairs)` agrees with the reference: a later pair for the same slot
      overwrites an earlier one, and slots no pair touches keep their ids. */
  lemma {:induction false} ResolveAfterInit(t: Node, pairs: seq<TagPair>, tag: Filter)
    requires t.prefix == "" && AllLeafTags(pairs) && tag.IsLeafTag()
    ensures ResolveTagId(InitTags(t, pairs), tag) ==
              match LatestId(pairs, TagToString(tag))
              case Present(id) => Success(id)
              case Absent => ResolveTagId(t, tag)
    decreases |pairs|
  {
    if pairs != [] {
      var init := pairs[..|pairs| - 1];
      var last := pairs[|pairs| - 1];
      assert AllLeafTags(init) by {
        forall i | 0 <= i < |init| ensures init[i].tag.IsLeafTag() {
          assert init[i] == pairs[i];
        }
      }
      ResolveAfterInit(t, init, tag);
      ResolveAfterAdd(InitTags(t, init), last.tag, last.tagId, tag);
    }
  }

  /** `Tag("a:b")` and `MetaTag("a", "b")` have one canonical string, so they
      always resolve to the same id. */
  lemma TagAndMetaTagShareSlot(t: Node, k: string, v: string)
    ensures ResolveTagId(t, Tag(k + ":" + v)) == ResolveTagId(t, MetaTag(k, v))
  {
  }

  /** "tag1" and "tag1tag" keep distinct ids: after `onTagAdded` for tag1,
      tag2, tag3 and tag1tag, each tag resolves to its own id. */
  lemma PrefixOverlappingKeysCoexist()
    ensures var t := AddTag(AddTag(AddTag(AddTag(Leaf(""), Tag("tag1"), "1"), Tag("tag2"), "2"),
                                   Tag("tag3"), "3"), Tag("tag1tag"), "4");
            && ResolveTagId(t, Tag("tag1")) == Success("1")
            && ResolveTagId(t, Tag("tag2")) == Success("2")
            && ResolveTagId(t, Tag("tag3")) == Success("3")
            && ResolveTagId(t, Tag("tag1tag")) == Success("4")
  {
    var t0 := Leaf("");
    var t1 := AddTag(t0, Tag("tag1"), "1");
    var t2 := AddTag(t1, Tag("tag2"), "2");
    var t3 := AddTag(t2, Tag("tag3"), "3");
    var t4 := AddTag(t3, Tag("tag1tag"), "4");
    assert Slot("tag1") == "tag1" && Slot("tag2") == "tag2" && Slot("tag3") == "tag3";
    assert Slot("tag1tag") == "tag1tag";
    ResolveAfterAdd(t3, Tag("tag1tag"), "4", Tag("tag1"));
    ResolveAfterAdd(t2, Tag("tag3"), "3", Tag("tag1"));
    ResolveAfterAdd(t1, Tag("tag2"), "2", Tag("tag1"));
    ResolveAfterAdd(t0, Tag("tag1"), "1", Tag("tag1"));
    ResolveAfterAdd(t3, Tag("tag1tag"), "4", Tag("tag2"));
    ResolveAfterAdd(t2, Tag("tag3"), "3", Tag("tag2"));
    ResolveAfterAdd(t1, Tag("tag2"), "2", Tag("tag2"));
    ResolveAfterAdd(t3, Tag("tag1tag"), "4", Tag("tag3"));
    ResolveAfterAdd(t2, Tag("tag3"), "3", Tag("tag3"));
    ResolveAfterAdd(t3, Tag("tag1tag"), "4", Tag("tag1tag"));
  }

  /** The storage quirk seen from the cache: "tag11" is stored where "tag1"
      is, so after registering only tag1 the lookup of tag11 answers its id. */
  lemma RepeatedLastCharacterSharesSlot(t: Node)
    requires t.prefix == ""
    ensures ResolveTagId(AddTag(t, Tag("tag1"), "1"), Tag("tag11")) == Success("1")
  {
    assert Slot("tag11") == "tag1";
    ResolveAfterAdd(t, Tag("tag1"), "1", Tag("tag11"));
  }

  // ----- the cache object ---------------------------------------------------

  /** The `TagIdCache` object: it owns one trie, rooted at the empty prefix,
      which `onTagAdded` and `init` update in place. */
  class TagIdCache {
    const tagTrie: Trie

    ghost predicate Valid()
      reads tagTrie, tagTrie.Repr
    {
      tagTrie.Valid() && tagTrie.Model.prefix == "" && WellFormed(tagTrie.Model)
    }

    ghost function Model(): Node
      reads tagTrie
    {
      tagTrie.Model
    }

    constructor ()
      ensures Valid() && fresh(tagTrie.Repr)
      ensures Model() == Leaf("")
    {
      tagTrie := new Trie("");
    }

    /** `tagToTagId`: the stored id, or the not-found error. */
    function TagToTagId(tag: Filter): (r: Result<string, string>)
      reads tagTrie, tagTrie.Repr
      requires Valid() && tag.IsLeafTag()
      ensures r == ResolveTagId(Model(), tag)
    {
      var id := tagTrie.Lookup(TagToString(tag));
      if !id.IsPresent() then Failure(NotFoundMessage(TagToString(tag))) else id.Get()
    }

    method OnTagAdded(tag: Filter, tagId: string)
      requires Valid() && tag.IsLeafTag()
      modifies tagTrie.Repr
      ensures Valid() && fresh(tagTrie.Repr - old(tagTrie.Repr))
      ensures Model() == AddTag(old(Model()), tag, tagId)
    {
      var tagName := TagToString(tag);
      if tagName != "" {
        tagTrie.Insert(tagName, tagId);
      }
      assert Model() == AddTag(old(Model()), tag, tagId);
    }

    /** `init(tags)`: the `forEach` over the pairs, in order. */
    method Init(tags: seq<TagPair>)
      requires Valid() && AllLeafTags(tags)
      modifies tagTrie.Repr
      ensures Valid() && fresh(tagTrie.Repr - old(tagTrie.Repr))
      ensures Model() == InitTags(old(Model()), tags)
    {
      for i := 0 to |tags|
        invariant Valid() && fresh(tagTrie.Repr - old(tagTrie.Repr))
        invariant AllLeafTags(tags[..i])
        invariant Model() == InitTags(old(Model()), tags[..i])
      {
        OnTagAdded(tags[i].tag, tags[i].tagId);
        assert tags[..i + 1][..i] == tags[..i];
      }
      assert tags[..|tags|] == tags;
    }
  }
}
