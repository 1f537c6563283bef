/**
 * The property detail page: the load of one record with its three outcomes,
 * the choice between the loading, error and detail views, and the save
 * toggle, which reads the saved state when it is clicked.
 */
module PropertyDetailPage {
  import opened Wrappers
  import opened PropertyService
  import opened LocalStorage
  import PropertyCard

  /** How `propertyService.getById` settled: with a record or `null`, or by throwing. */
  datatype Fetch = Fetched(result: Option<Property>) | Threw

  const FailedMessage: string := "Failed to load property details"

  /** What the page renders. */
  datatype View = LoadingView | ErrorView(message: string) | DetailView(property: Property)

  /** JavaScript truthiness of the error cell: `null` and `""` are false. */
  predicate HasError(error: Option<string>) {
    error.Some? && error.value != ""
  }

  class DetailPage {
    var property: Option<Property>
    var loading: bool
    var error: Option<string>
    const store: Store

    constructor (store: Store)
      ensures property == None && loading && error == None
      ensures this.store == store
    {
      property := None;
      loading := true;
      error := None;
      this.store := store;
    }

    /**
     * The render gating: the loading view while loading; else the error
     * view when there is an error or no record, with the error's text or
     * "Property not found"; else the record.
     */
    function View(): (v: View)
      reads this
      ensures v == LoadingView <==> loading
      ensures v.ErrorView? <==> !loading && (HasError(error) || property.None?)
      ensures v.ErrorView? ==> v.message == if HasError(error) then error.value else NotFoundMessage
      ensures v.DetailView? ==> property == Some(v.property) && !HasError(error)
    {
      if loading then LoadingView
      else if HasError(error) || property.None? then
        ErrorView(if HasError(error) then error.value else NotFoundMessage)
      else DetailView(property.value)
    }

    /** The start of `loadProperty`: loading, with the error cleared. */
    method StartLoading()
      modifies this
      ensures loading && error == None && property == old(property)
      ensures View() == LoadingView
    {
      loading := true;
      error := None;
    }

    /**
     * The end of `loadProperty`: a record is stored; `null` sets "Property
     * not found" and a failure "Failed to load property details", both
     * leaving any earlier record in place; loading ends in every case.
     */
    method FinishLoading(outcome: Fetch)
      modifies this
      ensures !loading
      ensures outcome.Fetched? && outcome.result.Some? ==>
                property == outcome.result && error == old(error)
      ensures outcome.Fetched? && outcome.result.None? ==>
                error == Some(NotFoundMessage) && property == old(property)
      ensures outcome.Threw? ==> error == Some(FailedMessage) && property == old(property)
    {
      match outcome {
        case Fetched(data) =>
          if data.Some? {
            property := data;
          } else {
            error := Some(NotFoundMessage);
          }
        case Threw =>
          error := Some(FailedMessage);
      }
      loading := false;
    }

    /**
     * `loadProperty` against the record table: the page ends up showing the
     * first record with the id, or the "Property not found" error view.
     */
    method LoadProperty(table: PropertyTable, id: int)
      modifies this
      ensures !loading && table.data == old(table.data)
      ensures FindIndex(table.data, id).Some? ==>
                View() == DetailView(table.data[FindIndex(table.data, id).value])
      ensures FindIndex(table.data, id).None? ==> View() == ErrorView(NotFoundMessage)
    {
      StartLoading();
      var data := table.GetById(id);
      FinishLoading(Fetched(data));
      if FindIndex(table.data, id).Some? {
        var i := FindIndex(table.data, id).value;
        assert data.value.id == id;
        var k :| 0 <= k < |table.data| && table.data[k] == data.value && data.value.id == id
                 && forall j :: 0 <= j < k ==> table.data[j].id != id;
        assert k == i;
      }
    }

    /** The badge on the detail view, by the card's rule. */
    function ShowsNewConstruction(currentYear: int): (r: bool)
      reads this
      ensures r <==> !loading && !HasError(error) && property.Some? && property.value.yearBuilt.Some?
                     && property.value.yearBuilt.value != 0 && currentYear - property.value.yearBuilt.value < 5
    {
      View().DetailView? && PropertyCard.IsNewConstruction(View().property.yearBuilt, currentYear)
    }

    /**
     * `handleSave`: nothing without a record; otherwise the saved state read
     * at click time decides between remove and save, so with a working store
     * the saved state of the record flips.
     */
    method HandleSave(now: int)
      modifies store
      ensures store.writable == old(store.writable)
      ensures property.None? || !old(store.writable) ==> store.items == old(store.items)
      ensures property.Some? && old(store.IsPropertySaved(property.value.id)) ==>
                store.GetSavedProperties() ==
                  (if old(store.writable) then WithoutId(old(store.GetSavedProperties()), property.value.id)
                   else old(store.GetSavedProperties()))
      ensures property.Some? && !old(store.IsPropertySaved(property.value.id)) ==>
                store.GetSavedProperties() ==
                  (if old(store.writable) then WithEntry(old(store.GetSavedProperties()), property.value.id, now)
                   else old(store.GetSavedProperties()))
      ensures property.Some? && old(store.writable) ==>
                store.IsPropertySaved(property.value.id) == !old(store.IsPropertySaved(property.value.id))
      ensures store.GetFilterPreferences() == old(store.GetFilterPreferences())
      ensures UniqueEntries(old(store.GetSavedProperties())) ==> UniqueEntries(store.GetSavedProperties())
    {
      if property.None? {
        return;
      }
      var id := property.value.id;
      var isSaved := store.IsPropertySaved(id);
      PropertyCard.HandleSave(store, id, isSaved, now);
    }
  }
}
