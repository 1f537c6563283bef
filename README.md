# HomeHub listing browser — a Dafny model

HomeHub is a browser-side real-estate listing app. This project models its core logic in Dafny and proves properties of that model:

- **The record service.** An in-memory table of listings with find, append with `max Id + 1`, merge-update and splice-delete.
- **The saved-property registry and the filter-preference slot.** Both are kept in the browser's local store.
- **The listing page's filter engine.** This covers `applyFilters`, the active-filter pills, `removeFilter`, `clearFilters` and the first-load merge of the URL search term with the saved preference.
- **The filter sidebar.** This covers `updateFilter`, `hasActiveFilters` and the select-to-criterion conversion.
- **The saved-properties page.** It joins the live listings with the registry, sorts them most recently saved first, and clears them.
- **The image gallery.** Wrap-around navigation plus a fullscreen flag.
- **The card and detail-page rules.** The save/unsave toggle, the feature preview, the "New Construction" badge, the outcome of loading one record, and the render gating.
- **The display formatters.**

## Structure

One module per source file, plus three helper modules.

| source | module | how it is modelled |
|---|---|---|
| `localStorage.js` | `LocalStorage` | Class `Store` over a map from key to parsed value. Its `writable` flag says whether `setItem` succeeds. |
| `propertyService.js` | `PropertyService` | Class `PropertyTable` over a sequence of records. |
| `PropertyListingPage.jsx` | `ListingPage` | The filter steps as data. `applyFilters` and `getActiveFilterPills` are methods that run the source's sequence of guarded steps. The pure rules are functions. Class `ListingPageState` holds the page state. |
| `FilterSidebar.jsx` | `FilterSidebar` | Pure functions and lemmas. |
| `SavedPropertiesPage.jsx` | `SavedPropertiesPage` | The join as a function. The sort is an in-place sort of an array. `clearAllSaved` is a loop over the store. Class `SavedPage` holds the page state. |
| `ImageGallery.jsx` | `ImageGallery` | Class `Gallery` holding the two state cells. |
| `formatters.js` | `Formatters` | Pure functions. |
| `PropertyCard.jsx` | `PropertyCard` | Pure preview and badge rules. The save toggle is a method on the store. |
| `PropertyDetailPage.jsx` | `PropertyDetailPage` | Class `DetailPage` holding the three state cells. |

The helper modules are:

- `Wrappers`: `Option` and `Result`.
- `Seqs`: subsequences.
- `Text`: `toLowerCase`, `includes`, `trim`, `split`/`join` on one character, and decimal text.

The filter record is `Filters.Criteria`, in `filters.dfy`:

- Four numeric fields, each `null` or a number.
- Two text fields.
- A flag for the stray `price: ""` property that removing the price pill adds.

JavaScript truthiness is written out. `IsSet(n)` is false for `null` and for `0`. A text criterion is active when it is not `""`.

Where the code and its documentation differ, the model follows the code:

- `applyFilters` ignores a numeric criterion of `0` (truthiness), but `hasActiveFilters` counts it as active. Both behaviours are proved: see `ListingPage.ZeroIsIgnored` and `FilterSidebar.ZeroActiveButIgnored`.
- Removing the price pill writes a property named `price` and leaves both price bounds in place, so the pill stays and the list is filtered as before (`ListingPage.PricePillSurvivesRemoval`).
- A saved preference is spread after the URL search term, so a stored `location` wins over `?search=` (`ListingPage.InitialFilters`).

## Model

| member | source | states |
|---|---|---|
| LocalStorage.WithoutId | src/utils/localStorage.js:37 | The filtered list holds exactly the entries whose id differs, as a subsequence of the original (order kept). |
| LocalStorage.WithEntry | src/utils/localStorage.js:22-23 | The list after a save: it holds the id afterwards, keeps every old entry as a prefix, and gains at most the one entry `(id, now)`, only when the id was absent. |
| LocalStorage.SaveAppendsOnce | src/utils/localStorage.js:22-27 | An absent id gets exactly one new entry `(id, now)` at the end. A present id leaves the list unchanged. Afterwards the id is present, and a second save is a no-op. |
| LocalStorage.SaveKeepsUnique | src/utils/localStorage.js:22-25 | Saving keeps at most one entry per property id. |
| LocalStorage.SubsequenceKeepsUnique | src/utils/localStorage.js:37 | A list filtered from one with distinct ids has distinct ids. |
| LocalStorage.RemoveDropsOnlyThatId | src/utils/localStorage.js:36-39 | After removal no entry has the id, and every other entry is kept in its original order. Distinct ids stay distinct. |
| LocalStorage.Store.GetSavedProperties | src/utils/localStorage.js:4-12 | A missing key gives `[]`. Unparsable content gives `[]`. Otherwise the stored list. |
| LocalStorage.Store.GetFilterPreferences | src/utils/localStorage.js:51-59 | A missing key gives `null`. Unparsable content gives `null`. Otherwise the stored criteria. |
| LocalStorage.Store.IsPropertySaved | src/utils/localStorage.js:46-49 | True iff some stored entry has the id. |
| LocalStorage.Store.SaveProperty | src/utils/localStorage.js:14-32 | Returns true iff the store is writable and the id was absent. The entry `(id, now)` is then appended and persisted. Otherwise nothing is stored and it returns false. Afterwards the id is saved whenever the write works. The preference key is untouched and distinct ids stay distinct. |
| LocalStorage.Store.RemoveSavedProperty | src/utils/localStorage.js:34-44 | Returns true iff the write succeeds, even when no entry matched. The persisted list then lacks every entry for the id. A failed write stores nothing. The preference key is untouched. |
| LocalStorage.Store.SaveFilterPreferences | src/utils/localStorage.js:61-67 | Overwrites the preference slot, after which `getFilterPreferences` returns the criteria. A failed write is swallowed and changes nothing. The saved list is untouched. |
| PropertyService.FindIndex | src/services/api/propertyService.js:30 | None iff no record has the id. Otherwise the index of the first record that has it. |
| PropertyService.MaxId | src/services/api/propertyService.js:19 | The largest `Id` of a non-empty table: no record exceeds it and some record has it. |
| PropertyService.Merge | src/services/api/propertyService.js:34 | The spread of a patch over a record: the empty patch changes nothing, and the `Id` is the patch's when present, else the record's. |
| PropertyService.PropertyTable.GetAll | src/services/api/propertyService.js:6-9 | Every record in table order. The table is not modified. |
| PropertyService.PropertyTable.GetById | src/services/api/propertyService.js:11-15 | `null` iff no record has the id. Otherwise the first record that has it. |
| PropertyService.PropertyTable.Create | src/services/api/propertyService.js:17-26 | The record gets `Id` max + 1, which is above every existing `Id`, and is appended. Distinct ids stay distinct. |
| PropertyService.PropertyTable.Update | src/services/api/propertyService.js:28-36 | Fails with "Property not found" when the id is absent, leaving the table unchanged. Otherwise replaces the first match in place with the merged record and returns it. The length and every other record are unchanged. |
| PropertyService.PropertyTable.Delete | src/services/api/propertyService.js:38-46 | Fails with "Property not found" when the id is absent. Otherwise removes exactly the first match and returns it; the rest keep their order. |
| PropertyService.UpdateKeepsUniqueIds | src/services/api/propertyService.js:34-35 | A patch without an `Id` keeps the ids distinct. |
| PropertyService.UpdateCanDuplicateIds | src/services/api/propertyService.js:34-35 | A patch carrying another record's `Id` makes two records share it; `update` does not check this. |
| ListingPage.Keep | src/components/pages/PropertyListingPage.jsx:74-78 | One `filter` call keeps exactly the records that pass the step. |
| ListingPage.Passes | src/components/pages/PropertyListingPage.jsx:72-104 | Each step's predicate. An empty location term passes every record, and an exact type match needs a type of the same length. |
| ListingPage.ActiveSteps | src/components/pages/PropertyListingPage.jsx:72-104 | One step per truthy criterion, so at most six, and none exactly when no criterion is truthy. |
| ListingPage.Select | src/components/pages/PropertyListingPage.jsx:68-107 | Selecting by a list of steps keeps exactly the records that pass all of them, as a subsequence. |
| ListingPage.KeepAfterSelect | src/components/pages/PropertyListingPage.jsx:68-107 | Filtering by one more step equals selecting by the longer list of steps. |
| ListingPage.Narrow | src/components/pages/PropertyListingPage.jsx:82-87 | A guarded step narrows the selection when its criterion is truthy and is skipped otherwise. |
| ListingPage.SelectNothing | src/components/pages/PropertyListingPage.jsx:69 | With no steps, every record is kept. |
| ListingPage.ApplyFilters | src/components/pages/PropertyListingPage.jsx:68-107 | The result is the selection by the active steps. It holds exactly the records that match the criteria, in their original order. |
| ListingPage.NarrowIf | src/components/pages/PropertyListingPage.jsx:82-87 | Given the selection by the steps run so far, one guarded step yields the selection by those steps plus its own. |
| ListingPage.MatchesExactly | src/components/pages/PropertyListingPage.jsx:68-107 | A record matches iff every truthy criterion holds:<br>- location: the lowercased term is a substring of the lowercased address, title or type;<br>- price and room counts: the bound holds;<br>- type: equal to the record's type ignoring case. |
| ListingPage.NothingSetIsIdentity | src/components/pages/PropertyListingPage.jsx:68-107 | Criteria with no truthy field, and the cleared record, leave the list unchanged. |
| ListingPage.ZeroIsIgnored | src/components/pages/PropertyListingPage.jsx:82-97 | A numeric criterion of `0` gives the same steps as `null`. |
| ListingPage.SelectIdempotent | src/components/pages/PropertyListingPage.jsx:68-107 | Applying the same criteria to their own result changes nothing. |
| ListingPage.SelectThenSelect | src/components/pages/PropertyListingPage.jsx:68-107 | Two filter chains one after the other equal one chain of both: the predicates compose by AND. |
| ListingPage.ActiveStepsMembers | src/components/pages/PropertyListingPage.jsx:68-107 | The steps run are exactly one per truthy criterion, each carrying that criterion's value. |
| ListingPage.PillShown | src/components/pages/PropertyListingPage.jsx:139-170 | The condition of each pill: its criterion is truthy; for the price pill, either bound is. Its link to the filtering is `PillsMatchSteps`. |
| ListingPage.GetActiveFilterPills | src/components/pages/PropertyListingPage.jsx:136-173 | A pill is present iff its criterion is truthy; the price pill iff either bound is. Pills come in the fixed order, each at most once, at most five. |
| ListingPage.PushIf | src/components/pages/PropertyListingPage.jsx:139-144 | One guarded `push` appends the pill iff its criterion is truthy, keeping the order. |
| ListingPage.PillsMatchSteps | src/components/pages/PropertyListingPage.jsx:136-173 | A pill is shown iff some step that the filter runs belongs to it, so no pills means no filtering. |
| ListingPage.RemoveFilterRule | src/components/pages/PropertyListingPage.jsx:129-134 | The named criterion becomes `null` when its name includes "Min" and `""` otherwise. No other criterion changes. The key "price" names no criterion and only adds the stray property. |
| ListingPage.RemoveFilter | src/components/pages/PropertyListingPage.jsx:129-134 | The named numeric criterion becomes `null` and the named text criterion `""`. Every other criterion is unchanged, and only the price key sets the stray `price` property. |
| ListingPage.MinMarksNumericPills | src/components/pages/PropertyListingPage.jsx:131 | Of the pill keys, exactly "bedroomsMin" and "bathroomsMin" include "Min". |
| ListingPage.PricePillSurvivesRemoval | src/components/pages/PropertyListingPage.jsx:145-152 | After removing the price pill, the pill is still shown and the filtered list is as before. |
| ListingPage.RemoveFilterHidesPill | src/components/pages/PropertyListingPage.jsx:129-134 | Removing any other pill hides it and leaves the other pills as they were. |
| ListingPage.InitialFilters | src/components/pages/PropertyListingPage.jsx:35-39 | Without a saved preference, `location` is the URL term or `""`. With one, every criterion, `location` included, comes from the preference. |
| ListingPage.SearchTerm | src/components/pages/PropertyListingPage.jsx:37 | The URL term, or `""` when there is none. Its use is stated by `InitialFilters`. |
| ListingPage.ListingPageState.constructor | src/components/pages/PropertyListingPage.jsx:21-28 | The page starts with the cleared criteria and empty lists. |
| Filters.Cleared | src/components/pages/PropertyListingPage.jsx:115-122 | The cleared record: every numeric criterion `null`, every text criterion `""`, no stray `price` property. |
| ListingPage.ListingPageState.InitializeFilters | src/components/pages/PropertyListingPage.jsx:31-42 | The criteria become the merge of the current criteria, the URL term and the stored preference. |
| ListingPage.ListingPageState.LoadProperties | src/components/pages/PropertyListingPage.jsx:54-66 | The listing becomes the records `getAll` returned. |
| ListingPage.ListingPageState.Refilter | src/components/pages/PropertyListingPage.jsx:50-52 | The shown list becomes the selection of the listing by the current criteria. |
| ListingPage.ListingPageState.HandleFiltersChange | src/components/pages/PropertyListingPage.jsx:109-112 | The criteria become the new ones and are persisted. A failed write leaves the store as it was. The saved list is untouched. |
| ListingPage.ListingPageState.ClearFilters | src/components/pages/PropertyListingPage.jsx:114-127 | The criteria become the cleared record, which is persisted. A failed write leaves the store as it was. The saved list is untouched. |
| ListingPage.ListingPageState.RemoveFilterPill | src/components/pages/PropertyListingPage.jsx:129-134 | The criteria become `removeFilter` of the old ones, which is persisted. A failed write leaves the store as it was. The saved list is untouched. |
| FilterSidebar.SelectToCriterion | src/components/organisms/FilterSidebar.jsx:125 | An empty select value gives `null`. Any other value gives a number, which is non-negative. |
| FilterSidebar.SelectedValue | src/components/organisms/FilterSidebar.jsx:124 | The select shows `""` iff the criterion is not truthy. |
| FilterSidebar.OptionRoundTrip | src/components/organisms/FilterSidebar.jsx:24-39 | Every offered bedroom and bathroom option converts to a criterion (`null`, or 1 to 5) that the select shows again as that option. |
| FilterSidebar.CriterionRoundTrip | src/components/organisms/FilterSidebar.jsx:124-125 | A positive criterion is shown as digits that convert back to it. |
| FilterSidebar.UpdateFilter | src/components/organisms/FilterSidebar.jsx:41-46 | The chosen field takes the value and every other field is unchanged. |
| FilterSidebar.UpdateOwnValue | src/components/organisms/FilterSidebar.jsx:41-46 | Writing a field's own value changes nothing. |
| FilterSidebar.UpdateTwice | src/components/organisms/FilterSidebar.jsx:41-46 | Of two writes to one field the last wins. Writes to different fields commute. |
| FilterSidebar.TypeOptionFiltersByType | src/components/organisms/FilterSidebar.jsx:16-22 | Picking an offered type filters by exactly that type, ignoring the case of the record's type. "All Types" filters nothing. |
| FilterSidebar.HasActiveFiltersExactly | src/components/organisms/FilterSidebar.jsx:48-50 | Active iff some numeric field holds a number (`0` included) or some text field is non-empty. |
| FilterSidebar.HasActiveFilters | src/components/organisms/FilterSidebar.jsx:48-50 | Some value of the criteria is neither `""` nor `null`. Its field-by-field form is `HasActiveFiltersExactly`. |
| FilterSidebar.FilteringShowsClear | src/components/organisms/FilterSidebar.jsx:84-93 | "Clear all" is offered whenever the listing is narrowed, never for the cleared record. A record with no active filters is the cleared one, apart from the stray `price` property. |
| FilterSidebar.ZeroActiveButIgnored | src/components/organisms/FilterSidebar.jsx:48-50 | A bedroom minimum of `0` counts as active and shows as "Any", yet it filters nothing. |
| SavedPropertiesPage.JoinSaved | src/components/pages/SavedPropertiesPage.jsx:32-34 | Exactly the live records with a registry entry, in table order; dangling ids are dropped. |
| SavedPropertiesPage.SavedDate | src/components/pages/SavedPropertiesPage.jsx:38-39 | The sort key of a record. `SavedDateIsFirstMatch` states that it is the date of the first entry for the id. |
| SavedPropertiesPage.SavedDateIsFirstMatch | src/components/pages/SavedPropertiesPage.jsx:38-39 | The sort key is the date of the first entry for the id. |
| SavedPropertiesPage.Swap | src/components/pages/SavedPropertiesPage.jsx:37-41 | Exchanges two cells and keeps the multiset. |
| SavedPropertiesPage.SortBySavedDate | src/components/pages/SavedPropertiesPage.jsx:37-41 | The in-place sort leaves the same records (a permutation), most recently saved first. |
| SavedPropertiesPage.SortedSaved | src/components/pages/SavedPropertiesPage.jsx:32-41 | The displayed list is a permutation of the join: exactly the live saved records, newest first, no longer than the live list. |
| SavedPropertiesPage.Ids | src/components/pages/SavedPropertiesPage.jsx:54-56 | The ids of the displayed records, position by position. |
| SavedPropertiesPage.RemoveIds | src/components/pages/SavedPropertiesPage.jsx:54-56 | After the removals, exactly the entries whose id is not in the list remain. |
| SavedPropertiesPage.RemoveIdsStep | src/components/pages/SavedPropertiesPage.jsx:54-56 | Each loop iteration is one more `removeSavedProperty`. |
| SavedPropertiesPage.ClearKeepsDangling | src/components/pages/SavedPropertiesPage.jsx:53-57 | Clearing removes the entries of the displayed records; entries of ids without a live record remain. |
| SavedPropertiesPage.SavedPage.constructor | src/components/pages/SavedPropertiesPage.jsx:11-14 | The page starts loading, with empty lists. |
| SavedPropertiesPage.SavedPage.LoadSavedProperties | src/components/pages/SavedPropertiesPage.jsx:20-51 | Displays exactly the live saved records, newest first, as a permutation of the join. Loading ends. |
| SavedPropertiesPage.SavedPage.ClearAllSaved | src/components/pages/SavedPropertiesPage.jsx:53-59 | The registry loses the entries of the displayed ids only. The display empties and the preference slot is untouched. |
| Seqs.SubsequenceElements | src/components/pages/SavedPropertiesPage.jsx:32-34 | A filtered list is no longer than the original and its elements are elements of it. |
| ImageGallery.JsRem | src/components/organisms/ImageGallery.jsx:11 | JavaScript `%`: equals the Euclidean remainder on a non-negative dividend and is non-positive on a negative one. |
| ImageGallery.NextIndex | src/components/organisms/ImageGallery.jsx:10-12 | Stays within range: one forward, and from the last image back to the first. |
| ImageGallery.PrevIndex | src/components/organisms/ImageGallery.jsx:14-16 | Stays within range: one back, and from the first image to the last. |
| ImageGallery.NextPrevInverse | src/components/organisms/ImageGallery.jsx:10-16 | Next then previous, and previous then next, restore the index. |
| ImageGallery.AdvanceIsRotation | src/components/organisms/ImageGallery.jsx:10-12 | `k` presses (up to a full round) move `k` places forward, wrapping around. |
| ImageGallery.FullCycle | src/components/organisms/ImageGallery.jsx:10-12 | `n` presses return to the starting image. |
| ImageGallery.Gallery.constructor | src/components/organisms/ImageGallery.jsx:7-8 | Starts at index 0, not fullscreen. |
| ImageGallery.Gallery.NextImage | src/components/organisms/ImageGallery.jsx:10-12 | The index moves to the next one; the fullscreen flag is unchanged. |
| ImageGallery.Gallery.PrevImage | src/components/organisms/ImageGallery.jsx:14-16 | The index moves to the previous one; the fullscreen flag is unchanged. |
| ImageGallery.Gallery.GoToImage | src/components/organisms/ImageGallery.jsx:18-20 | The index becomes the thumbnail's index; the fullscreen flag is unchanged. |
| ImageGallery.Gallery.OpenFullscreen | src/components/organisms/ImageGallery.jsx:33 | Sets fullscreen; the index is unchanged. |
| ImageGallery.Gallery.CloseFullscreen | src/components/organisms/ImageGallery.jsx:103-106 | Clears fullscreen; the index is unchanged. |
| ImageGallery.Gallery.Counter | src/components/organisms/ImageGallery.jsx:59 | The counter shows a position between 1 and the image count, one above the index. |
| ImageGallery.Gallery.ShowsNavigation | src/components/organisms/ImageGallery.jsx:40 | Arrows and thumbnails are shown exactly when pressing next, or previous, moves to another image. They are never shown for an empty gallery. |
| Formatters.PriceTier | src/utils/formatters.js:1-9 | Millions iff ≥ 1000000; thousands iff 1000 to 999999; plain iff below 1000. |
| Formatters.PriceTierMonotone | src/utils/formatters.js:1-9 | A higher price never gets a lower tier. |
| Formatters.FormatPrice | src/utils/formatters.js:1-9 | Starts with "$". The result is `$`, the number text and "M" iff the price is ≥ 1000000; the number text and "K" iff it is 1000 to 999999; the number text alone iff it is below 1000. |
| Formatters.FormatAddress | src/utils/formatters.js:15-27 | With a comma: the trimmed text before the first comma and the trimmed rest (later commas kept). Without one: the untrimmed address and `""`. |
| Formatters.AddressRejoins | src/utils/formatters.js:15-22 | The street holds no comma, and the two parts are shorter than the address. Parts without surrounding space rejoin around one comma to the address. |
| Formatters.CountText | src/utils/formatters.js:29-35 | The count, a space, the unit, and "s" unless the count is one. |
| Formatters.BedroomText | src/utils/formatters.js:29-31 | "1 bed" for one, otherwise "n beds". |
| Formatters.BathroomText | src/utils/formatters.js:33-35 | "1 bath" for one, otherwise "n baths". |
| Formatters.CountTextReadsBack | src/utils/formatters.js:29-35 | Plural exactly when the count is not one. The text before the first space is the count, which reads back as the number. |
| Formatters.Clamp | src/utils/formatters.js:39 | The `substring` end: the limit when it is within the text, never past the end. |
| Formatters.TruncateText | src/utils/formatters.js:37-40 | Text within the limit is unchanged. Longer text becomes its trimmed prefix followed by "...". The result is at most the clamped limit (0 for a negative limit) plus three long and ends in "...". |
| Formatters.TruncateBounds | src/utils/formatters.js:37-40 | Never longer than the limit plus three. Before the "..." comes a slice of the cut prefix, from where its leading space ends. |
| Formatters.TruncateDefault | src/utils/formatters.js:37-38 | With the default limit of 150, text of at most 150 characters is kept whole and no result is longer than 153. |
| Text.Lower | src/components/pages/PropertyListingPage.jsx:73-77 | `toLowerCase` maps every character and keeps the length. |
| Text.IncludesAt | src/components/pages/PropertyListingPage.jsx:75-77 | `includes` holds iff the term is the slice at some position. |
| Text.Trim | src/utils/formatters.js:20-21 | `trim` gives the slice between the leading and trailing white space, which starts and ends with a non-space. |
| Text.TrimIdempotent | src/utils/formatters.js:20-21 | Trimming twice trims nothing more. |
| Text.JoinSplit | src/utils/formatters.js:16-21 | Joining the pieces of a split gives back the text. |
| Text.SplitAtFirst | src/utils/formatters.js:16-21 | Two or more pieces iff the separator occurs. Then the first piece precedes the first separator and the rest rejoin to the text after it. |
| Text.Split | src/utils/formatters.js:16 | `split` on one character gives at least one piece. `JoinSplit` and `SplitAtFirst` state what the pieces are. |
| Text.Join | src/utils/formatters.js:20 | `join` with one character. `JoinSplit` states that it undoes `Split`. |
| Text.IntToString | src/utils/formatters.js:30 | A non-negative number's text is digits that read back as the number. A negative number's text is a minus sign followed by digits that read back as its magnitude. |
| Text.ParseNatToString | src/components/organisms/FilterSidebar.jsx:125 | `parseInt` of a number's decimal text is the number. |
| PropertyCard.FeaturePreview | src/components/organisms/PropertyCard.jsx:82-95 | No badges without features. Otherwise the first `min(2, n)` features, plus "+N more" iff `n > 2`, with `N = n - 2`. |
| PropertyCard.PreviewCountsAll | src/components/organisms/PropertyCard.jsx:84-93 | The badges shown plus `N` account for every feature, and the badges are the leading features. |
| PropertyCard.IsNewConstruction | src/components/organisms/PropertyCard.jsx:49 | The badge rule: a truthy build year less than five years back. Its window is `NewConstructionWindow`. |
| PropertyCard.NewConstructionWindow | src/components/organisms/PropertyCard.jsx:49 | Shown for a truthy build year iff the current year is at most four years later. Once gone it stays gone. Never shown for a missing or zero year. |
| PropertyCard.HandleSave | src/components/organisms/PropertyCard.jsx:15-23 | Removes the id when saved at render time, saves it otherwise. With a working store, and a fresh render, membership flips. The preference slot is untouched and distinct ids stay distinct. |
| PropertyDetailPage.DetailPage.constructor | src/components/pages/PropertyDetailPage.jsx:20-22 | Starts loading, with no record and no error. |
| PropertyDetailPage.DetailPage.View | src/components/pages/PropertyDetailPage.jsx:66-87 | The loading view iff loading. Else the error view iff there is an error or no record, with the error text or "Property not found". Else the record. |
| PropertyDetailPage.DetailPage.StartLoading | src/components/pages/PropertyDetailPage.jsx:30-31 | Loading, with the error cleared; the loading view is shown. |
| PropertyDetailPage.DetailPage.FinishLoading | src/components/pages/PropertyDetailPage.jsx:32-42 | A record is stored. `null` sets "Property not found" and a failure sets "Failed to load property details". Loading ends in every case. |
| PropertyDetailPage.DetailPage.LoadProperty | src/components/pages/PropertyDetailPage.jsx:28-43 | The page ends by showing the first record with the id, or the "Property not found" error view. |
| PropertyDetailPage.DetailPage.ShowsNewConstruction | src/components/pages/PropertyDetailPage.jsx:130 | The detail view of a record with a truthy build year less than five years back. |
| PropertyDetailPage.DetailPage.HandleSave | src/components/pages/PropertyDetailPage.jsx:45-56 | A no-op without a record, and a failed write changes nothing. Otherwise the membership read at click time decides: a saved id is removed (`WithoutId`), an unsaved one is saved at `now` (`WithEntry`), so membership flips. The preference slot is untouched and distinct ids stay distinct. |

## Left out

- Browser storage I/O and JSON: the store is a map from key to parsed value, and corrupt text is the value `Unparsable`. Values that parse but have the wrong shape (a non-list under the registry key) are not modelled.
- Numbers are integers. Fractional prices and bathroom counts such as 2.5 are not modelled, nor `NaN` or `Infinity`.
- Dates: `toISOString` and `new Date(...)` arithmetic are an integer clock (`now`), and `getFullYear()` is the parameter `currentYear`.
- Async machinery: the `delay` awaits, `Promise.all` and the loading flags of the listing page are dropped; only resolved values are kept. The error cells of the listing and saved pages are not modelled, because the in-memory `getAll` cannot fail.
- React wiring, JSX markup, animation, toasts, routing and the Retry button are not modelled. `setSearchParams({})` in `clearFilters`, which makes the first effect run again, is not modelled either.
- Number text: `toFixed` and `toLocaleString` in `formatPrice` are the parameter `number`, and the pill labels are not modelled.
- Text: `toLowerCase` and `trim` use ASCII case and white space only.
- Formatters.TruncateText: lengths and the cut are counted in characters (Unicode scalar values), not in the UTF-16 code units of JavaScript's `length` and `substring`. Text with characters outside the Basic Multilingual Plane is therefore truncated differently, and the source may cut a surrogate pair in half.
- The property-type select reads `filters.property_type_c`, a field the criteria never have, so it always shows "All Types". This is display only and is not modelled.
- FilterSidebar.SelectToCriterion: requires digit text. `parseInt` of other text (`NaN`) cannot come from the offered options.
- PropertyService.PropertyTable.Create: requires a non-empty table. On an empty table `Math.max()` is `-Infinity` and the new `Id` is not a finite integer.
- Image gallery indices are specified for a non-empty image list: with no images, `% 0` gives `NaN` and the source shows nothing to navigate.
- SavedPropertiesPage.SortBySavedDate: states the order and the permutation, not stability for equal dates.
- SavedPropertiesPage.SavedDate: `0` stands for a missing entry; the sort only looks up joined records, which always have one.
- PropertyCard.HandleSave: the membership flip is stated for a card whose render-time `isSaved` is current; a stale render is captured by the parameter `isSaved`.
- Presentation-only components, `formatSquareFeet` and the field-name mismatches on the detail page are not part of this model.
