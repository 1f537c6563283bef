/**
 * The saved-property registry and the filter-preference slot, both kept in
 * the browser's local key-value store. The store is modelled as a map from
 * key to the parsed value: `JSON.stringify` followed by `JSON.parse` is the
 * identity, and text that does not parse is the value `Unparsable`. A store
 * with `writable` false is one whose `setItem` throws (quota exceeded or
 * storage disabled); the source catches that error.
 */
module LocalStorage {
  import opened Wrappers
  import opened Seqs
  import opened Filters

  /** One registry entry; `savedDate` is the save time on an integer clock. */
  datatype SavedEntry = SavedEntry(propertyId: int, savedDate: int)

  /** What a key of the store holds once read back. */
  datatype Blob = EntryList(entries: seq<SavedEntry>) | FilterBlob(criteria: Criteria) | Unparsable

  const SavedPropertiesKey: string := "homehub_saved_properties"
  const FilterPreferencesKey: string := "homehub_filter_preferences"

  // ---------------------------------------------------------------------
  // The registry as a list of entries
  // ---------------------------------------------------------------------

  /** `saved.some(item => item.propertyId === id)` */
  predicate HasEntry(entries: seq<SavedEntry>, id: int) {
    exists i :: 0 <= i < |entries| && entries[i].propertyId == id
  }

  /** The registry keeps at most one entry per property id. */
  predicate UniqueEntries(entries: seq<SavedEntry>) {
    forall i, j :: 0 <= i < j < |entries| ==> entries[i].propertyId != entries[j].propertyId
  }

  /** The list `saveProperty` leaves: one new entry at the end unless the id is there. */
  function WithEntry(entries: seq<SavedEntry>, id: int, now: int): (r: seq<SavedEntry>)
    ensures HasEntry(r, id)
    ensures forall e :: e in r <==> e in entries || (!HasEntry(entries, id) && e == SavedEntry(id, now))
    ensures entries <= r && |r| <= |entries| + 1
  {
    if HasEntry(entries, id) then entries
    else
      var r := entries + [SavedEntry(id, now)];
      assert r[|entries|].propertyId == id;
      r
  }

  /** `saved.filter(item => item.propertyId !== id)` */
  function WithoutId(entries: seq<SavedEntry>, id: int): (r: seq<SavedEntry>)
    ensures forall e :: e in r <==> e in entries && e.propertyId != id
    ensures IsSubsequence(r, entries)
  {
    if entries == [] then []
    else if entries[0].propertyId != id then [entries[0]] + WithoutId(entries[1..], id)
    else WithoutId(entries[1..], id)
  }

  /**
   * Saving an absent id appends exactly one entry with the current time;
   * saving a present id changes nothing, so a second save is a no-op.
   */
  lemma SaveAppendsOnce(entries: seq<SavedEntry>, id: int, now: int, later: int)
    ensures !HasEntry(entries, id) ==> WithEntry(entries, id, now) == entries + [SavedEntry(id, now)]
    ensures HasEntry(entries, id) ==> WithEntry(entries, id, now) == entries
    ensures HasEntry(WithEntry(entries, id, now), id)
    ensures WithEntry(WithEntry(entries, id, now), id, later) == WithEntry(entries, id, now)
  {
    var r := entries + [SavedEntry(id, now)];
    assert r[|entries|].propertyId == id;
  }

  /** Saving keeps the at-most-one-entry-per-id invariant. */
  lemma SaveKeepsUnique(entries: seq<SavedEntry>, id: int, now: int)
    requires UniqueEntries(entries)
    ensures UniqueEntries(WithEntry(entries, id, now))
  {
  }

  /** A subsequence of a list with distinct ids has distinct ids. */
  lemma {:induction false} SubsequenceKeepsUnique(a: seq<SavedEntry>, b: seq<SavedEntry>)
    requires IsSubsequence(a, b) && UniqueEntries(b)
    ensures UniqueEntries(a)
    decreases |b|
  {
    if a != [] {
      assert UniqueEntries(b[1..]) by {
        forall i, j | 0 <= i < j < |b[1..]|
          ensures b[1..][i].propertyId != b[1..][j].propertyId
        {
          assert b[1..][i] == b[i + 1] && b[1..][j] == b[j + 1];
        }
      }
      if a[0] == b[0] && IsSubsequence(a[1..], b[1..]) {
        SubsequenceKeepsUnique(a[1..], b[1..]);
        SubsequenceElements(a[1..], b[1..]);
        forall j | 0 < j < |a|
          ensures a[0].propertyId != a[j].propertyId
        {
          assert a[j] in a[1..];
          var k :| 0 <= k < |b[1..]| && b[1..][k] == a[j];
          assert b[k + 1] == a[j];
        }
        forall i, j | 0 <= i < j < |a|
          ensures a[i].propertyId != a[j].propertyId
        {
          if i > 0 {
            assert a[i] == a[1..][i - 1] && a[j] == a[1..][j - 1];
          }
        }
      } else {
        SubsequenceKeepsUnique(a, b[1..]);
      }
    }
  }

  /**
   * Removing an id drops every entry with it, keeps every other entry in its
   * original order, and keeps the ids distinct.
   */
  lemma RemoveDropsOnlyThatId(entries: seq<SavedEntry>, id: int)
    ensures !HasEntry(WithoutId(entries, id), id)
    ensures forall e :: e in entries && e.propertyId != id ==> e in WithoutId(entries, id)
    ensures IsSubsequence(WithoutId(entries, id), entries)
    ensures UniqueEntries(entries) ==> UniqueEntries(WithoutId(entries, id))
  {
    var r := WithoutId(entries, id);
    forall i | 0 <= i < |r|
      ensures r[i].propertyId != id
    {
      assert r[i] in r;
    }
    if UniqueEntries(entries) {
      SubsequenceKeepsUnique(r, entries);
    }
  }

  // ---------------------------------------------------------------------
  // The store
  // ---------------------------------------------------------------------

  class Store {
    /** `localStorage`: every key of the origin, parsed. */
    var items: map<string, Blob>
    /** Whether `setItem` succeeds. */
    var writable: bool

    constructor (initial: map<string, Blob>, canWrite: bool)
      ensures items == initial && writable == canWrite
    {
      items := initial;
      writable := canWrite;
    }

    /**
     * `getSavedProperties`: the stored list; `[]` when the key is missing
     * or its content does not parse.
     */
    function GetSavedProperties(): (r: seq<SavedEntry>)
      reads this
      ensures SavedPropertiesKey !in items ==> r == []
      ensures SavedPropertiesKey in items && items[SavedPropertiesKey] == Unparsable ==> r == []
      ensures SavedPropertiesKey in items && items[SavedPropertiesKey].EntryList? ==>
                r == items[SavedPropertiesKey].entries
    {
      if SavedPropertiesKey in items && items[SavedPropertiesKey].EntryList? then
        items[SavedPropertiesKey].entries
      else []
    }

    /** `isPropertySaved`: some stored entry has the id. */
    predicate IsPropertySaved(id: int): (r: bool)
      reads this
      ensures r <==> exists e :: e in GetSavedProperties() && e.propertyId == id
    {
      HasEntry(GetSavedProperties(), id)
    }

    /**
     * `getFilterPreferences`: the stored criteria; `null` when nothing is
     * stored or the content does not parse.
     */
    function GetFilterPreferences(): (r: Option<Criteria>)
      reads this
      ensures FilterPreferencesKey !in items ==> r == None
      ensures FilterPreferencesKey in items && items[FilterPreferencesKey] == Unparsable ==> r == None
      ensures FilterPreferencesKey in items && items[FilterPreferencesKey].FilterBlob? ==>
                r == Some(items[FilterPreferencesKey].criteria)
    {
      if FilterPreferencesKey in items && items[FilterPreferencesKey].FilterBlob? then
        Some(items[FilterPreferencesKey].criteria)
      else None
    }

    /**
     * `saveProperty`: when the id is not saved yet, appends
     * `{propertyId: id, savedDate: now}`, persists the list and returns true;
     * otherwise (or when the write fails) returns false and stores nothing.
     */
    method SaveProperty(id: int, now: int) returns (added: bool)
      modifies this
      ensures writable == old(writable)
      ensures added <==> old(writable) && !old(IsPropertySaved(id))
      ensures added ==> items == old(items)[SavedPropertiesKey :=
                EntryList(old(GetSavedProperties()) + [SavedEntry(id, now)])]
      ensures !added ==> items == old(items)
      ensures old(writable) ==> IsPropertySaved(id)
      ensures GetSavedProperties() == if old(writable) then WithEntry(old(GetSavedProperties()), id, now)
                                      else old(GetSavedProperties())
      ensures GetFilterPreferences() == old(GetFilterPreferences())
      ensures UniqueEntries(old(GetSavedProperties())) ==> UniqueEntries(GetSavedProperties())
    {
      var saved := GetSavedProperties();
      var savedProperty := SavedEntry(id, now);
      if !HasEntry(saved, id) {
        saved := saved + [savedProperty];
        if writable {
          items := items[SavedPropertiesKey := EntryList(saved)];
          added := true;
          SaveAppendsOnce(old(GetSavedProperties()), id, now, now);
        } else {
          added := false;
        }
      } else {
        added := false;
      }
      if UniqueEntries(old(GetSavedProperties())) {
        SaveKeepsUnique(old(GetSavedProperties()), id, now);
      }
    }

    /**
     * `removeSavedProperty`: persists the list without any entry for the id
     * and returns true, whether or not an entry matched; returns false and
     * stores nothing when the write fails.
     */
    method RemoveSavedProperty(id: int) returns (ok: bool)
      modifies this
      ensures writable == old(writable)
      ensures ok == old(writable)
      ensures ok ==> items == old(items)[SavedPropertiesKey := EntryList(WithoutId(old(GetSavedProperties()), id))]
      ensures !ok ==> items == old(items)
      ensures ok ==> !IsPropertySaved(id)
      ensures GetFilterPreferences() == old(GetFilterPreferences())
      ensures UniqueEntries(old(GetSavedProperties())) ==> UniqueEntries(GetSavedProperties())
    {
      var saved := GetSavedProperties();
      var filtered := WithoutId(saved, id);
      RemoveDropsOnlyThatId(saved, id);
      if writable {
        items := items[SavedPropertiesKey := EntryList(filtered)];
        ok := true;
      } else {
        ok := false;
      }
    }

    /**
     * `saveFilterPreferences`: overwrites the preference slot with the
     * criteria; a failed write is swallowed.
     */
    method SaveFilterPreferences(filters: Criteria)
      modifies this
      ensures writable == old(writable)
      ensures old(writable) ==> items == old(items)[FilterPreferencesKey := FilterBlob(filters)]
      ensures !old(writable) ==> items == old(items)
      ensures old(writable) ==> GetFilterPreferences() == Some(filters)
      ensures GetSavedProperties() == old(GetSavedProperties())
    {
      if writable {
        items := items[FilterPreferencesKey := FilterBlob(filters)];
      }
    }
  }
}
