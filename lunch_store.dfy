/** src/store/useLunchStore.ts: the lunch catalogue and the draft behind the lunch form. */
module LunchStore {
  import opened Wrappers
  import opened Types

  /** The draft is a lunch whose id is optional. */
  datatype LunchDraft = LunchDraft(id: Option<string>, title: string, imagen: string, price: int, tags: seq<string>)

  /** `initialDraft`: no id, empty title and image, price 0, no tags. */
  function InitialDraft(): (d: LunchDraft)
    ensures d.id.None? && d.title == "" && d.imagen == "" && d.price == 0 && d.tags == []
  {
    LunchDraft(None, "", "", 0, [])
  }

  /** The lunch built from the draft; `stamp` stands for `${Date.now()}`. */
  function NewLunch(d: LunchDraft, stamp: string): (l: Lunch)
    ensures d.id.Some? ==> l.id == d.id.value
    ensures d.id.None? ==> l.id == stamp
    ensures l.title == d.title && l.imagen == d.imagen && l.price == d.price && l.tags == d.tags
  {
    Lunch(d.id.GetOr(stamp), d.title, d.imagen, d.price, d.tags)
  }

  predicate DistinctIds(lunches: seq<Lunch>) {
    forall i, j :: 0 <= i < j < |lunches| ==> lunches[i].id != lunches[j].id
  }

  /** Prepending a lunch whose id is not yet used keeps the ids distinct. */
  lemma PrependKeepsIdsDistinct(l: Lunch, lunches: seq<Lunch>)
    requires DistinctIds(lunches)
    requires forall i :: 0 <= i < |lunches| ==> lunches[i].id != l.id
    ensures DistinctIds([l] + lunches)
  {
    var r := [l] + lunches;
    forall i, j | 0 <= i < j < |r| ensures r[i].id != r[j].id {
      assert r[j] == lunches[j - 1];
      if i > 0 {
        assert r[i] == lunches[i - 1];
      }
    }
  }

  class Store {
    var lunches: seq<Lunch>
    var draft: LunchDraft

    /** No action ever puts an id into the draft. */
    ghost predicate Valid()
      reads this`draft
    {
      draft.id.None?
    }

    constructor ()
      ensures Valid() && lunches == [] && draft == InitialDraft()
    {
      lunches, draft := [], InitialDraft();
    }

    method SetDraftTitle(title: string)
      requires Valid()
      modifies this`draft
      ensures Valid() && draft == old(draft).(title := title)
    {
      draft := draft.(title := title);
    }

    method SetDraftImagen(imagen: string)
      requires Valid()
      modifies this`draft
      ensures Valid() && draft == old(draft).(imagen := imagen)
    {
      draft := draft.(imagen := imagen);
    }

    method SetDraftPrice(price: int)
      requires Valid()
      modifies this`draft
      ensures Valid() && draft == old(draft).(price := price)
    {
      draft := draft.(price := price);
    }

    method SetDraftTags(tags: seq<string>)
      requires Valid()
      modifies this`draft
      ensures Valid() && draft == old(draft).(tags := tags)
    {
      draft := draft.(tags := tags);
    }

    method ResetDraftImagen()
      requires Valid()
      modifies this`draft
      ensures Valid() && draft == old(draft).(imagen := "")
    {
      draft := draft.(imagen := "");
    }

    method ResetDraft()
      modifies this`draft
      ensures Valid() && draft == InitialDraft()
    {
      draft := InitialDraft();
    }

    /**
     * `addLunchFromDraft`: the new lunch goes first, the old ones follow
     * unchanged, then the draft is reset (two successive updates).
     */
    method AddLunchFromDraft(stamp: string)
      requires Valid()
      modifies this`lunches, this`draft
      ensures Valid() && draft == InitialDraft()
      ensures |lunches| == |old(lunches)| + 1 && lunches[1..] == old(lunches)
      ensures lunches[0] == Lunch(stamp, old(draft.title), old(draft.imagen), old(draft.price), old(draft.tags))
      ensures DistinctIds(old(lunches)) && (forall i :: 0 <= i < |old(lunches)| ==> old(lunches)[i].id != stamp)
        ==> DistinctIds(lunches)
    {
      var added := NewLunch(draft, stamp);
      lunches := [added] + lunches;
      draft := InitialDraft();
      if DistinctIds(old(lunches)) && (forall i :: 0 <= i < |old(lunches)| ==> old(lunches)[i].id != stamp) {
        PrependKeepsIdsDistinct(added, old(lunches));
      }
    }
  }
}
