/**
 * The saved-properties page: the join of the live listings with the saved
 * registry, the most-recent-first sort, and `clearAllSaved`.
 */
module SavedPropertiesPage {
  import opened Wrappers
  import opened Seqs
  import opened PropertyService
  import opened LocalStorage

  // ---------------------------------------------------------------------
  // The join and the sort
  // ---------------------------------------------------------------------

  /**
   * `properties.filter(p => savedIds.some(s => s.propertyId === p.Id))`:
   * the live records that have a registry entry, in table order.
   */
  function JoinSaved(properties: seq<Property>, entries: seq<SavedEntry>): (r: seq<Property>)
    ensures forall p :: p in r <==> p in properties && HasEntry(entries, p.id)
    ensures IsSubsequence(r, properties)
  {
    if properties == [] then []
    else if HasEntry(entries, properties[0].id) then [properties[0]] + JoinSaved(properties[1..], entries)
    else JoinSaved(properties[1..], entries)
  }

  /**
   * `savedIds.find(s => s.propertyId === id)?.savedDate`: the date of the
   * first entry for the id. The sort only asks about joined records, which
   * always have one; `0` stands for the missing case.
   */
  function SavedDate(entries: seq<SavedEntry>, id: int): int {
    if entries == [] then 0
    else if entries[0].propertyId == id then entries[0].savedDate
    else SavedDate(entries[1..], id)
  }

  /** `SavedDate` is the date of the first entry with the id, and 0 when there is none. */
  lemma {:induction false} SavedDateIsFirstMatch(entries: seq<SavedEntry>, id: int)
    ensures !HasEntry(entries, id) ==> SavedDate(entries, id) == 0
    ensures HasEntry(entries, id) ==>
              exists i :: 0 <= i < |entries| && entries[i].propertyId == id
                       && entries[i].savedDate == SavedDate(entries, id)
                       && forall j :: 0 <= j < i ==> entries[j].propertyId != id
  {
    if entries != [] && entries[0].propertyId != id {
      SavedDateIsFirstMatch(entries[1..], id);
      assert forall j :: 1 <= j < |entries| ==> entries[j] == entries[1..][j - 1];
      if HasEntry(entries[1..], id) {
        var i :| 0 <= i < |entries[1..]| && entries[1..][i].propertyId == id
                 && entries[1..][i].savedDate == SavedDate(entries[1..], id)
                 && forall j :: 0 <= j < i ==> entries[1..][j].propertyId != id;
        assert entries[i + 1].propertyId == id;
      }
      assert HasEntry(entries, id) ==> HasEntry(entries[1..], id);
    } else if entries != [] {
      assert entries[0].propertyId == id;
    }
  }

  /** The date a record was saved on. */
  function DateOf(entries: seq<SavedEntry>, p: Property): int {
    SavedDate(entries, p.id)
  }

  /** Most recent first: no record is followed by one saved later. */
  predicate NewestFirst(s: seq<Property>, entries: seq<SavedEntry>) {
    forall k, l :: 0 <= k < l < |s| ==> DateOf(entries, s[k]) >= DateOf(entries, s[l])
  }

  /** Exchanges two cells. */
  method Swap(a: array<Property>, i: nat, j: nat)
    requires i < j < a.Length
    modifies a
    ensures a[i] == old(a[j]) && a[j] == old(a[i])
    ensures forall m :: 0 <= m < a.Length && m != i && m != j ==> a[m] == old(a[m])
    ensures multiset(a[..]) == multiset(old(a[..]))
  {
    a[i], a[j] := a[j], a[i];
  }

  /**
   * `saved.sort((a, b) => date(b) - date(a))`, in place: afterwards the
   * array holds the same records, most recently saved first.
   */
  method SortBySavedDate(a: array<Property>, entries: seq<SavedEntry>)
    modifies a
    ensures NewestFirst(a[..], entries)
    ensures multiset(a[..]) == multiset(old(a[..]))
  {
    if a.Length == 0 {
      return;
    }
    var i := 1;
    while i < a.Length
      invariant 1 <= i <= a.Length
      invariant forall k, l :: 0 <= k < l < i ==> DateOf(entries, a[k]) >= DateOf(entries, a[l])
      invariant multiset(a[..]) == multiset(old(a[..]))
    {
      var j := i;
      while j > 0 && DateOf(entries, a[j - 1]) < DateOf(entries, a[j])
        invariant 0 <= j <= i
        invariant forall k, l :: 0 <= k < l <= i && l != j ==> DateOf(entries, a[k]) >= DateOf(entries, a[l])
        invariant multiset(a[..]) == multiset(old(a[..]))
      {
        Swap(a, j - 1, j);
        j := j - 1;
      }
      i := i + 1;
    }
  }

  /**
   * The list `loadSavedProperties` displays: the joined records, sorted in
   * an array of their own. Every record shown is live and saved, each live
   * saved record is shown, and the newest comes first.
   */
  method SortedSaved(properties: seq<Property>, entries: seq<SavedEntry>) returns (displayed: seq<Property>)
    ensures multiset(displayed) == multiset(JoinSaved(properties, entries))
    ensures forall p :: p in displayed <==> p in properties && HasEntry(entries, p.id)
    ensures NewestFirst(displayed, entries)
    ensures |displayed| <= |properties|
  {
    var saved := JoinSaved(properties, entries);
    SubsequenceElements(saved, properties);
    var a := new Property[|saved|](i requires 0 <= i < |saved| => saved[i]);
    assert a[..] == saved;
    SortBySavedDate(a, entries);
    displayed := a[..];
    assert forall p :: p in displayed <==> p in multiset(displayed);
    assert forall p :: p in saved <==> p in multiset(saved);
  }

  // ---------------------------------------------------------------------
  // clearAllSaved
  // ---------------------------------------------------------------------

  /** The `Id`s of a list of records, in order. */
  function Ids(s: seq<Property>): (r: seq<int>)
    ensures |r| == |s|
    ensures forall i :: 0 <= i < |s| ==> r[i] == s[i].id
  {
    if s == [] then [] else [s[0].id] + Ids(s[1..])
  }

  /** The registry after `removeSavedProperty` for each id in turn. */
  function RemoveIds(entries: seq<SavedEntry>, ids: seq<int>): (r: seq<SavedEntry>)
    ensures forall e :: e in r <==> e in entries && e.propertyId !in ids
  {
    if ids == [] then entries
    else
      var r := WithoutId(RemoveIds(entries, ids[..|ids| - 1]), ids[|ids| - 1]);
      assert forall x :: x in ids <==> x in ids[..|ids| - 1] || x == ids[|ids| - 1] by {
        assert ids == ids[..|ids| - 1] + [ids[|ids| - 1]];
      }
      r
  }

  /** Removing one more id of the list is one more `removeSavedProperty`. */
  lemma RemoveIdsStep(entries: seq<SavedEntry>, ids: seq<int>, i: nat)
    requires i < |ids|
    ensures RemoveIds(entries, ids[..i + 1]) == WithoutId(RemoveIds(entries, ids[..i]), ids[i])
  {
    assert ids[..i + 1][..i] == ids[..i];
  }

  /**
   * Clearing removes the entries of the displayed records and no others: a
   * saved id without a live record keeps its entry, and so does any entry
   * whose record is not displayed.
   */
  lemma ClearKeepsDangling(properties: seq<Property>, displayed: seq<Property>, entries: seq<SavedEntry>)
    requires forall p :: p in displayed ==> p in properties
    ensures forall p :: p in displayed ==> !HasEntry(RemoveIds(entries, Ids(displayed)), p.id)
    ensures forall e :: e in entries && (forall p :: p in properties ==> p.id != e.propertyId) ==>
              e in RemoveIds(entries, Ids(displayed))
  {
    var r := RemoveIds(entries, Ids(displayed));
    forall p | p in displayed
      ensures !HasEntry(r, p.id)
    {
      var k :| 0 <= k < |displayed| && displayed[k] == p;
      assert Ids(displayed)[k] == p.id;
      forall i | 0 <= i < |r|
        ensures r[i].propertyId != p.id
      {
        assert r[i] in r;
      }
    }
    forall e | e in entries && (forall p :: p in properties ==> p.id != e.propertyId)
      ensures e in r
    {
      forall i | 0 <= i < |displayed|
        ensures Ids(displayed)[i] != e.propertyId
      {
        assert displayed[i] in displayed;
      }
    }
  }

  // ---------------------------------------------------------------------
  // Page state
  // ---------------------------------------------------------------------

  /** The saved page's state cells and the registry it reads and clears. */
  class SavedPage {
    var savedProperties: seq<Property>
    var allProperties: seq<Property>
    var loading: bool
    const store: Store

    constructor (store: Store)
      ensures savedProperties == [] && allProperties == [] && loading
      ensures this.store == store
    {
      savedProperties := [];
      allProperties := [];
      loading := true;
      this.store := store;
    }

    /**
     * `loadSavedProperties` with the records `getAll` resolved to: the
     * joined, sorted list is displayed and loading ends.
     */
    method LoadSavedProperties(properties: seq<Property>)
      modifies this
      ensures allProperties == properties && !loading
      ensures forall p :: p in savedProperties <==> p in properties && store.IsPropertySaved(p.id)
      ensures multiset(savedProperties) == multiset(JoinSaved(properties, store.GetSavedProperties()))
      ensures NewestFirst(savedProperties, store.GetSavedProperties())
    {
      loading := true;
      var savedIds := store.GetSavedProperties();
      var sortedSaved := SortedSaved(properties, savedIds);
      allProperties := properties;
      savedProperties := sortedSaved;
      loading := false;
    }

    /**
     * `clearAllSaved`: removes the entry of each displayed record, one
     * `removeSavedProperty` call at a time, then empties the display.
     */
    method ClearAllSaved()
      modifies this, store
      ensures savedProperties == [] && allProperties == old(allProperties) && loading == old(loading)
      ensures store.writable == old(store.writable)
      ensures old(store.writable) ==>
                store.GetSavedProperties() == RemoveIds(old(store.GetSavedProperties()), Ids(old(savedProperties)))
      ensures !old(store.writable) ==> store.items == old(store.items)
      ensures store.GetFilterPreferences() == old(store.GetFilterPreferences())
    {
      var ids := Ids(savedProperties);
      ghost var before := store.GetSavedProperties();
      ghost var canWrite := store.writable;
      var i := 0;
      while i < |ids|
        invariant 0 <= i <= |ids|
        invariant store.writable == canWrite
        invariant canWrite ==> store.GetSavedProperties() == RemoveIds(before, ids[..i])
        invariant !canWrite ==> store.items == old(store.items)
        invariant store.GetFilterPreferences() == old(store.GetFilterPreferences())
        modifies store
      {
        RemoveIdsStep(before, ids, i);
        var ok := store.RemoveSavedProperty(ids[i]);
        i := i + 1;
      }
      assert ids[..i] == ids;
      savedProperties := [];
    }
  }
}
