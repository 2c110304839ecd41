/** The shared wizard selection: its all-empty initial value, the merge of
    a partial update into it, and the provider object that holds it. */
module SelectionContext {
  import opened Types

  /** Nothing chosen yet: every field is `null`. */
  const InitialSelection := UserSelection(None, None, None, None)

  /** A partial selection. An outer `None` is a key the update does not
      mention; `Some(v)` sets the field to `v`, which may itself be `None`
      (an explicit `null`). */
  datatype SelectionUpdate = SelectionUpdate(
    plotId: Option<Option<string>>,
    constructionFormat: Option<Option<ConstructionFormat>>,
    houseProjectId: Option<Option<string>>,
    bookingId: Option<Option<string>>)

  /** The update that mentions no key. */
  const NoUpdate := SelectionUpdate(None, None, None, None)

  function Pick<T>(previous: T, update: Option<T>): T {
    if update.Some? then update.value else previous
  }

  /** Object spread of the update over the previous selection: every field
      the update mentions takes the update's value, every other field keeps
      its previous value. */
  function Merge(prev: UserSelection, upd: SelectionUpdate): (r: UserSelection)
    ensures upd.plotId.Some? ==> r.plotId == upd.plotId.value
    ensures upd.plotId.None? ==> r.plotId == prev.plotId
    ensures upd.constructionFormat.Some? ==> r.constructionFormat == upd.constructionFormat.value
    ensures upd.constructionFormat.None? ==> r.constructionFormat == prev.constructionFormat
    ensures upd.houseProjectId.Some? ==> r.houseProjectId == upd.houseProjectId.value
    ensures upd.houseProjectId.None? ==> r.houseProjectId == prev.houseProjectId
    ensures upd.bookingId.Some? ==> r.bookingId == upd.bookingId.value
    ensures upd.bookingId.None? ==> r.bookingId == prev.bookingId
  {
    UserSelection(
      Pick(prev.plotId, upd.plotId),
      Pick(prev.constructionFormat, upd.constructionFormat),
      Pick(prev.houseProjectId, upd.houseProjectId),
      Pick(prev.bookingId, upd.bookingId))
  }

  /** Two successive updates as one: a key mentioned by the later update
      takes its value, otherwise the earlier update's. */
  function Then(first: SelectionUpdate, second: SelectionUpdate): SelectionUpdate {
    SelectionUpdate(
      if second.plotId.Some? then second.plotId else first.plotId,
      if second.constructionFormat.Some? then second.constructionFormat else first.constructionFormat,
      if second.houseProjectId.Some? then second.houseProjectId else first.houseProjectId,
      if second.bookingId.Some? then second.bookingId else first.bookingId)
  }

  /** An update that mentions no key leaves the selection as it is. */
  lemma MergeNothing(prev: UserSelection)
    ensures Merge(prev, NoUpdate) == prev
  {
  }

  /** Applying the same update twice is applying it once. */
  lemma MergeIdempotent(prev: UserSelection, upd: SelectionUpdate)
    ensures Merge(Merge(prev, upd), upd) == Merge(prev, upd)
  {
  }

  /** Two updates in a row equal their combination, the later one winning. */
  lemma MergeThen(prev: UserSelection, first: SelectionUpdate, second: SelectionUpdate)
    ensures Merge(Merge(prev, first), second) == Merge(prev, Then(first, second))
  {
  }

  /** An update that mentions every key determines the result regardless
      of what was selected before. */
  lemma MergeFullUpdate(prev: UserSelection, other: UserSelection, upd: SelectionUpdate)
    requires upd.plotId.Some? && upd.constructionFormat.Some?
    requires upd.houseProjectId.Some? && upd.bookingId.Some?
    ensures Merge(prev, upd) == Merge(other, upd)
  {
  }

  /** The provider of the shared selection. */
  class SelectionProvider {
    var selection: UserSelection

    constructor()
      ensures selection == InitialSelection
    {
      selection := InitialSelection;
    }

    /** Merges a partial update into the current selection. */
    method UpdateSelection(updates: SelectionUpdate)
      modifies this
      ensures selection == Merge(old(selection), updates)
    {
      selection := UserSelection(
        Pick(selection.plotId, updates.plotId),
        Pick(selection.constructionFormat, updates.constructionFormat),
        Pick(selection.houseProjectId, updates.houseProjectId),
        Pick(selection.bookingId, updates.bookingId));
    }

    /** Returns the selection to its initial all-empty value, whatever it was. */
    method ResetSelection()
      modifies this
      ensures selection == InitialSelection
      ensures selection.plotId.None? && selection.constructionFormat.None?
      ensures selection.houseProjectId.None? && selection.bookingId.None?
    {
      selection := UserSelection(None, None, None, None);
    }
  }
}
