/** src/components/custom/ViewForm.tsx: removing a tag from the lunch draft. */
module ViewForm {
  import Lists
  import LunchStore

  /** `draft.tags.filter(tag => tag !== tagToRemove)` */
  function WithoutTag(tags: seq<string>, t: string): (r: seq<string>)
    ensures forall i :: 0 <= i < |r| ==> r[i] != t && r[i] in tags
    ensures forall i :: 0 <= i < |tags| && tags[i] != t ==> tags[i] in r
  {
    Lists.Filter(tags, (tag: string) => tag != t)
  }

  /** The other tags keep their order and multiplicity. */
  lemma WithoutTagKeepsOthers(a: seq<string>, b: seq<string>, t: string, u: string)
    ensures WithoutTag(a + b, t) == WithoutTag(a, t) + WithoutTag(b, t)
    ensures multiset(WithoutTag(a, t))[u] == if u != t then multiset(a)[u] else 0
  {
    Lists.FilterConcat(a, b, (tag: string) => tag != t);
    Lists.FilterMultiplicity(a, (tag: string) => tag != t, u);
  }

  /** Removing a tag that is not there changes nothing. */
  lemma WithoutAbsentTag(tags: seq<string>, t: string)
    requires t !in tags
    ensures WithoutTag(tags, t) == tags
  {
    Lists.FilterKeepsAll(tags, (tag: string) => tag != t);
  }

  /** Removing the same tag twice is removing it once. */
  lemma WithoutTagIdempotent(tags: seq<string>, t: string)
    ensures WithoutTag(WithoutTag(tags, t), t) == WithoutTag(tags, t)
  {
    Lists.FilterIdempotent(tags, (tag: string) => tag != t);
  }

  /** `removeTag`: the filtered tags are handed to `setDraftTags`. */
  method RemoveTag(store: LunchStore.Store, t: string)
    requires store.Valid()
    modifies store`draft
    ensures store.Valid()
    ensures store.draft == old(store.draft).(tags := WithoutTag(old(store.draft.tags), t))
  {
    store.SetDraftTags(WithoutTag(store.draft.tags, t));
  }
}
