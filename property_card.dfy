/**
 * The listing card: the feature preview, the "New Construction" badge and
 * the save / unsave toggle, which acts on the membership read when the card
 * was rendered.
 */
module PropertyCard {
  import opened Wrappers
  import opened Filters
  import opened LocalStorage

  /** The feature badges on a card and the "+N more" badge, when there is one. */
  datatype Preview = Preview(shown: seq<string>, more: Option<nat>)

  /**
   * The preview: nothing without features; otherwise the first two features
   * and, past two, a badge counting the rest.
   */
  function FeaturePreview(features: Option<seq<string>>): (r: Preview)
    ensures features.None? ==> r == Preview([], None)
    ensures features.Some? ==> r.shown <= features.value
    ensures features.Some? ==> |r.shown| == if |features.value| < 2 then |features.value| else 2
    ensures r.more.Some? <==> features.Some? && |features.value| > 2
    ensures r.more.Some? ==> r.more.value == |features.value| - 2
  {
    match features
    case None => Preview([], None)
    case Some(fs) =>
      if |fs| == 0 then Preview([], None)
      else if |fs| <= 2 then Preview(fs, None)
      else Preview(fs[..2], Some(|fs| - 2))
  }

  /**
   * Every feature is accounted for: the badges shown plus the number on
   * "+N more" is the number of features, and the badges are distinct
   * positions of the list.
   */
  lemma PreviewCountsAll(features: seq<string>)
    ensures var r := FeaturePreview(Some(features));
            |r.shown| + r.more.GetOr(0) == |features|
            && forall i :: 0 <= i < |r.shown| ==> r.shown[i] == features[i]
  {
  }

  /**
   * The badge rule `yearBuilt && currentYear - yearBuilt < 5`: a truthy
   * build year less than five years back. The current year is a parameter.
   */
  predicate IsNewConstruction(yearBuilt: Option<int>, currentYear: int) {
    IsSet(yearBuilt) && currentYear - yearBuilt.value < 5
  }

  /**
   * For a known build year the badge shows up to four years after it (and
   * for any future year), and once it is gone it stays gone.
   */
  lemma NewConstructionWindow(year: int, currentYear: int, laterYear: int)
    requires year != 0 && currentYear <= laterYear
    ensures IsNewConstruction(Some(year), currentYear) <==> currentYear <= year + 4
    ensures !IsNewConstruction(Some(year), currentYear) ==> !IsNewConstruction(Some(year), laterYear)
    ensures !IsNewConstruction(None, currentYear) && !IsNewConstruction(Some(0), currentYear)
  {
  }

  /**
   * `handleSave`: removes the id when it was saved at render time and saves
   * it otherwise (at time `now`). With a fresh render and a working store
   * the saved state of the id flips; the preference slot is never touched.
   */
  method HandleSave(store: Store, id: int, isSaved: bool, now: int)
    modifies store
    ensures store.writable == old(store.writable)
    ensures !old(store.writable) ==> store.items == old(store.items)
    ensures isSaved ==>
              store.GetSavedProperties() ==
                (if old(store.writable) then WithoutId(old(store.GetSavedProperties()), id)
                 else old(store.GetSavedProperties()))
    ensures !isSaved ==>
              store.GetSavedProperties() ==
                (if old(store.writable) then WithEntry(old(store.GetSavedProperties()), id, now)
                 else old(store.GetSavedProperties()))
    ensures old(store.writable) ==> store.IsPropertySaved(id) == !isSaved
    ensures store.GetFilterPreferences() == old(store.GetFilterPreferences())
    ensures UniqueEntries(old(store.GetSavedProperties())) ==> UniqueEntries(store.GetSavedProperties())
  {
    if isSaved {
      var ok := store.RemoveSavedProperty(id);
    } else {
      var added := store.SaveProperty(id, now);
    }
  }
}
