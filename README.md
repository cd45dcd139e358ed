# Inventory tracker: state layer and derived views

A model of the core of a small single-user stock tracker for a delivery
restaurant. The tracker keeps a list of items, each with a quantity, a unit
and a low-stock threshold. The list is kept in local storage and edited
through a form that can ask an AI service for a unit and a threshold. It is
shown filtered by stock status and by a name search. A separate `Dashboard`
component computes summary counts of a collection; `App.tsx` does not mount
it.

What is modelled:

- `UseInventory` (hooks/useInventory.ts). The collection is a class `Inventory` with `var items`.
  - Its four operations are methods: `AddItem`, `UpdateItem`, `DeleteItem` and `UpdateStock`.
  - Each method's new collection is a pure function: `NewItem`, `Updated`, `Removed` and `Restocked`. Lemmas state what each of them keeps and changes.
  - A `Storage` object holds an opaque `Snapshot`. The constructor loads from it, falling back to the seed list. Every operation writes the collection back. A failed write leaves storage as it was and the collection as the operation left it.
- `InventoryItemCard` (components/InventoryItemCard.tsx). It holds the status classification `GetStatusInfo` and the stepper clamp `StepperQuantity`. `HandleQuantityChange` hands the clamped value to `UpdateStock`.
- `Dashboard` (components/Dashboard.tsx). It computes the three summary counts of the collection it is given. Lemmas relate them to the card's classification. No file of the core mounts this component.
- `ItemFormModal` (components/ItemFormModal.tsx). The form's state cells are a class `ItemForm`. It has the draft-loading effect, the submitted record, and the AI auto-fill. Submitting goes through the browser's constraint validation first (`required` name and unit, `min="0"` quantity and threshold), so an invalid draft submits nothing. The auto-fill is split at its `await`, and the service's settled result is an input: `Suggested`, `NoSuggestion` (the service returned `null`) or `RequestFailed` (the service threw).
- `App` (App.tsx). It holds the two-stage filter view, with its lemmas. The class `AppState` holds the modal state and the save routing.
- `Types` (types.ts). The datatypes, plus lemmas about the enum and filter strings.
- `Seqs`. A generic order-preserving filter with its facts: subsequence, fusion, commutation, and counting. `Wrappers` holds `Option`.

Inputs that come from outside the core are parameters.
- The clock is `millis: nat`, which stands for `getTime()`, and `timestamp: string`, which stands for `toISOString()`.
- Whether a storage write succeeds is `saveSucceeds`.
- The delete confirmation dialog is `confirmed`.
- The AI service's outcome is a `SuggestOutcome`.

Behaviour of the code worth knowing, each stated by a lemma:
- **Ids.** The id of a new item is the decimal millisecond clock. Two adds in the same millisecond share an id (`SameMillisecondAddsCollide`); adds in different milliseconds do not (`DistinctMillisGiveDistinctIds`).
- **No clamp in `updateStock`.** It stores its value as given (`RestockDoesNotClamp`). The only clamp is the card's stepper (`HandleQuantityChange`, `StepperKeepsStockNonNegative`).
- **Counts.** On quantities 10, 0, 3, 50 with thresholds 5, 10, 5, 100 the dashboard counts two low items, since 50 ≤ 100 (`MixedStats`).
- **Malformed suggestions.** A reply that parses as JSON but lacks a string `unit` or a numeric `lowStockThreshold` comes back as `null`, and the form then changes nothing and shows no error (`FinishSuggest` on `NoSuggestion`). A reply that is not JSON at all makes the service throw, and the form shows its failure message (`FinishSuggest` on `RequestFailed`).
- **Negative quantities.** The dashboard's low-stock count and the card's classification disagree on negative quantities (`NegativeQuantityDiverges`). They agree on a stock without negative quantities (`StatsMatchClassification`), which the stepper and a validated form keep (`StepperKeepsStockNonNegative`, `ValidatedSaveKeepsStockNonNegative`); only a stored snapshot can bring one in.

## Model

| member | source | states |
|---|---|---|
| Types.ItemIsDataWithMeta | types.ts:8-17 | an item is exactly its four data fields plus an id and a time stamp, in both directions |
| Types.StockStatusHasThreeValues | types.ts:2-6 | the status enum has exactly three values, with pairwise different string tags |
| Types.FilterTypeHasFourValues | types.ts:19 | the filter type has exactly four members, with pairwise different strings |
| Types.FilterFor | types.ts:2-19 | every status tag is the string of a filter other than `'all'` |
| Types.StatusFor | types.ts:2-19 | every filter other than `'all'` names exactly one status with the same string; `'all'` names none |
| Types.StatusTagsAreFilterTags | types.ts:2-19 | a filter string equals a status tag exactly when the filter is not `'all'` and names that status; `'all'` is no status tag |
| UseInventory.Storage.constructor | hooks/useInventory.ts:17 | storage starts with the given snapshot under the inventory key |
| UseInventory.InitialInventory | hooks/useInventory.ts:7-12 | the seed list has four items, all stamped with the seed time, none with a negative quantity |
| UseInventory.Load | hooks/useInventory.ts:15-23 | loading returns the stored collection when there is one, and otherwise (absent, empty or unparseable) the seed list; it never fails |
| UseInventory.SeedIdsAreDistinct | hooks/useInventory.ts:7-12 | the seed list has four items with ids "1" to "4", all distinct |
| UseInventory.Decimal | hooks/useInventory.ts:36 | the numeral of the clock value is never empty, and has at least two digits from 10 on |
| UseInventory.DecimalInjective | hooks/useInventory.ts:36 | different clock values give different numerals |
| UseInventory.MillisId | hooks/useInventory.ts:36 | a new id is a non-empty string of decimal digits |
| UseInventory.DistinctMillisGiveDistinctIds | hooks/useInventory.ts:36 | two new ids are equal exactly when they were created in the same millisecond |
| UseInventory.NewItem | hooks/useInventory.ts:34-38 | the new item carries the caller's four data fields unchanged, the clock id and the time stamp |
| UseInventory.SameMillisecondAddsCollide | hooks/useInventory.ts:36 | two adds in the same millisecond leave the collection with a duplicate id |
| UseInventory.AppendKeepsUniqueIds | hooks/useInventory.ts:39 | appending keeps ids unique if and only if the new id is not yet present |
| UseInventory.Merge | hooks/useInventory.ts:45 | the merged item keeps the id and carries the new time stamp; `MergeTakesSuppliedFields` states its fields |
| UseInventory.MergeTakesSuppliedFields | hooks/useInventory.ts:45 | merging keeps the id, stamps the new time, takes each supplied field and keeps each missing one; a full patch yields exactly its data; merging twice is merging once |
| UseInventory.SetQuantity | hooks/useInventory.ts:57 | the item keeps its id, gets the new time stamp, and of its data only the quantity changes, to the given value |
| UseInventory.MapMatching | hooks/useInventory.ts:44-46 | the mapped collection has the same length; items with the id are transformed, all others are kept in place |
| UseInventory.Updated | hooks/useInventory.ts:42-48 | the collection after `updateItem` has the same length and the same id at every position; `UpdatedSpec` states the rest |
| UseInventory.UpdatedSpec | hooks/useInventory.ts:42-48 | `updateItem` keeps length, order and ids and leaves other items untouched. It merges into matching items, is a no-op for an absent id, and keeps ids unique exactly when they were unique before |
| UseInventory.Restocked | hooks/useInventory.ts:54-60 | the collection after `updateStock` keeps length and ids; each position holds the new quantity if its id matches and its old quantity otherwise |
| UseInventory.RestockedSpec | hooks/useInventory.ts:54-60 | `updateStock` sets the matching items' quantity to exactly the given value and their time stamp, and nothing else in them or in any other item |
| UseInventory.RestockIsQuantityPatch | hooks/useInventory.ts:42-60 | `updateStock` equals `updateItem` with only the quantity supplied |
| UseInventory.RestockDoesNotClamp | hooks/useInventory.ts:54-60 | a negative quantity given to `updateStock` is stored as it is |
| UseInventory.FilterKeepsUniqueIds | hooks/useInventory.ts:50-52 | removing items keeps ids unique |
| UseInventory.Removed | hooks/useInventory.ts:50-52 | the collection after `deleteItem` is no longer than before, and each of its items is an old item with another id |
| UseInventory.RemovedSpec | hooks/useInventory.ts:50-52 | `deleteItem` keeps exactly the items with another id, in their order: the result is a subsequence as long as the number of such items, so repeated records all stay. An absent id is a no-op. Ids stay unique and quantities non-negative, and with unique ids exactly one item goes |
| UseInventory.RemovedOneCount | hooks/useInventory.ts:50-52 | with unique ids, deleting a present id shortens the collection by one |
| UseInventory.Inventory.constructor | hooks/useInventory.ts:15-31 | on mount the collection is the loaded one, and it is then written to storage once |
| UseInventory.Inventory.Save | hooks/useInventory.ts:25-31 | a successful write stores the whole collection; a failed one is swallowed and changes neither storage nor the collection |
| UseInventory.Inventory.AddItem | hooks/useInventory.ts:33-40 | the collection becomes the old one plus the new item at the end, and is written through |
| UseInventory.Inventory.UpdateItem | hooks/useInventory.ts:42-48 | the collection becomes the merged one, and is written through |
| UseInventory.Inventory.DeleteItem | hooks/useInventory.ts:50-52 | the collection becomes the filtered one, and is written through |
| UseInventory.Inventory.UpdateStock | hooks/useInventory.ts:54-60 | the collection gets the new quantity unclamped, and is written through |
| UseInventory.ReloadAfterSave | hooks/useInventory.ts:15-31 | once an operation has saved (`Persisted()`, which every operation ensures when its write succeeds), loading the storage in a new session gives back exactly the collection in memory |
| UseInventory.AddThenReload | hooks/useInventory.ts:15-40 | after `AddItem` with a successful save, a reload gives the old collection followed by the new item with the caller's data, the clock id and the time stamp |
| InventoryItemCard.GetStatusInfo | components/InventoryItemCard.tsx:14-22 | exactly one status for every quantity and threshold: out of stock iff zero, low iff nonzero and at most the threshold, in stock iff above it |
| InventoryItemCard.Classify | components/InventoryItemCard.tsx:26 | the card's status of an item: out of stock iff its quantity is zero, low iff nonzero and at most its threshold, in stock iff above it |
| InventoryItemCard.StatusBoundaries | components/InventoryItemCard.tsx:15-21 | 5 of 5 is low, 6 of 5 is in stock, 0 of 5 is out of stock |
| InventoryItemCard.ZeroThreshold | components/InventoryItemCard.tsx:18-21 | with threshold 0 every positive quantity is in stock, and a negative one is low |
| InventoryItemCard.LabelsMatchStatuses | components/InventoryItemCard.tsx:14-22 | 품절, 재고 부족 and 재고 양호 label exactly out of stock, low and in stock, and two results have the same label iff the same status |
| InventoryItemCard.StepperQuantity | components/InventoryItemCard.tsx:29 | the proposed quantity is never negative, is at least quantity + delta, and is either quantity + delta or 0 |
| InventoryItemCard.StepperButtons | components/InventoryItemCard.tsx:28-31 | "-" at 0 stays 0; "+" from a non-negative quantity adds one; "-" above 0 subtracts one |
| InventoryItemCard.StepperKeepsStockNonNegative | components/InventoryItemCard.tsx:28-31 | a stock without negative quantities keeps none after any stepper press |
| InventoryItemCard.HandleQuantityChange | components/InventoryItemCard.tsx:28-31 | the card clamps and calls `updateStock`, so the changed items end with a non-negative quantity |
| Dashboard.CountsAsLow | components/Dashboard.tsx:13 | an item the dashboard counts as low is low for the card, and for a non-negative quantity the two agree both ways |
| Dashboard.CountsAsOut | components/Dashboard.tsx:15 | the dashboard counts an item as out of stock iff the card calls it out of stock |
| Dashboard.ComputeStats | components/Dashboard.tsx:10-17 | the total is the collection length, and the low and out-of-stock counts together never exceed it |
| Dashboard.StatsMatchClassification | components/Dashboard.tsx:12-15 | with non-negative quantities the low and out counts are the numbers of items the card shows as low and out, and the rest are in stock |
| Dashboard.NegativeQuantityDiverges | components/Dashboard.tsx:13 | an item with quantity -1 is low for the card but counted in neither dashboard figure |
| Dashboard.SeedStats | components/Dashboard.tsx:10-17 | the seed list counts 4 items, 2 low and 1 out of stock |
| Dashboard.MixedStats | components/Dashboard.tsx:10-17 | quantities 10, 0, 3, 50 with thresholds 5, 10, 5, 100 count 4 items, 2 low and 1 out of stock |
| Dashboard.CountOfFour | components/Dashboard.tsx:12-15 | a filtered count over four items is the number of them the condition holds for |
| ItemFormModal.DraftFor | components/ItemFormModal.tsx:23-35 | the draft is the item's four data fields, or empty name and unit with zero quantity and threshold |
| ItemFormModal.SubmittedRecord | components/ItemFormModal.tsx:39-52 | in edit mode the record is the item with the draft's data and its own id and time stamp; in create mode it is the bare draft data without an id |
| ItemFormModal.UnchangedFormResubmits | components/ItemFormModal.tsx:23-52 | opening an item and submitting unchanged submits that same item |
| ItemFormModal.ItemForm.constructor | components/ItemFormModal.tsx:16-35 | a freshly mounted form holds the draft for its item, no error and no request in flight |
| ItemFormModal.ItemForm.LoadDraft | components/ItemFormModal.tsx:23-35 | a new item prop reloads the draft from it and leaves the AI flag and message alone |
| ItemFormModal.ItemForm.SetName | components/ItemFormModal.tsx:83 | the name input sets the name; while a request is out the suggest button stays disabled |
| ItemFormModal.ItemForm.SetUnit | components/ItemFormModal.tsx:89 | the unit input sets the unit; while a request is out the suggest button stays disabled |
| ItemFormModal.ItemForm.SetLowStockThreshold | components/ItemFormModal.tsx:93 | the threshold input sets the threshold; while a request is out the suggest button stays disabled |
| ItemFormModal.ItemForm.SetQuantity | components/ItemFormModal.tsx:116 | the quantity input sets the quantity; while a request is out the suggest button stays disabled |
| ItemFormModal.PassesConstraints | components/ItemFormModal.tsx:83-116 | no contract of its own: the browser's constraint validation (`required` name and unit at lines 83 and 89, `min="0"` threshold and quantity at lines 93 and 116); `ItemForm.Submit` states what it gates |
| ItemFormModal.ItemForm.Submit | components/ItemFormModal.tsx:39-116 | a draft with an empty name or unit, or a negative quantity or threshold, submits nothing; any other draft submits its record: create mode gives the draft without an id, and edit mode the item's id with the draft's data |
| ItemFormModal.ItemForm.SuggestEnabled | components/ItemFormModal.tsx:98 | the suggest button is enabled only with a non-empty name and never while a request is out |
| ItemFormModal.ItemForm.BeginSuggest | components/ItemFormModal.tsx:54-60 | with an empty name, only the error message is set; otherwise the flag goes up and the error is cleared. The draft is untouched either way, an enabled button always sends a request, and once a request is out the button is disabled |
| ItemFormModal.ItemForm.FinishSuggest | components/ItemFormModal.tsx:61-72 | a suggestion overwrites unit and threshold only. `null` changes nothing and sets no error. A failure sets the error and keeps the draft. The flag always ends false |
| ItemFormModal.ItemForm.AiSuggest | components/ItemFormModal.tsx:54-73 | the whole request run without interleaving: the four outcomes above, ending with the flag false whenever a request was made |
| App.InlineStatus | App.tsx:54 | the filter's inline status string is the tag of the card's classification for every quantity and threshold |
| App.ToLower | App.tsx:58 | lowercasing keeps the length, turns each ASCII capital into its small letter (code point plus 32), leaves no capital, and keeps every other character |
| App.ToLowerIdempotent | App.tsx:58 | lowercasing twice is lowercasing once |
| App.Includes | App.tsx:58 | the empty needle is included in every name |
| App.IncludesAt | App.tsx:58 | `includes` holds exactly when the needle occurs at some position of the name |
| App.PassesStatus | App.tsx:52-56 | the status stage keeps an item iff the filter is `'all'` or names the card's status of it (the first `.filter` callback, `StatusStage`, applies this predicate) |
| App.MatchesSearch | App.tsx:57-58 | an empty search term matches every item, and so does any term whose lowercase begins the lowercased name (the second `.filter` callback, `SearchStage`, applies this predicate) |
| App.FilteredInventory | App.tsx:50-60 | the view is no longer than the collection, holds only items of it that pass both stages, and holds every such item |
| App.FilteredIsOnePass | App.tsx:50-60 | the two stages equal one filter by both conditions (`Keeps`) |
| App.FilteredSpec | App.tsx:50-60 | the view is an order-preserving subsequence of the collection, containing an item iff it passes the status filter and its lowercased name contains the lowercased term |
| App.ShowAllIsIdentity | App.tsx:53-58 | filter `'all'` with an empty search shows the whole collection |
| App.StagesCommute | App.tsx:51-59 | searching first and filtering by status second gives the same sequence |
| App.LowFilterShowsLowStock | App.tsx:50-60 | filter `'low'` with an empty search is exactly the items the card calls low, in order |
| App.SearchIgnoresCase | App.tsx:58 | the search ignores ASCII case; "kim" and "KIM" both find "Kimchi Sauce" |
| App.SavedCollection | App.tsx:35-40 | saving an edited record keeps length and ids; saving new data appends one item with exactly that data after the unchanged old items |
| App.ValidatedSaveKeepsStockNonNegative | App.tsx:35-40 | saving a record that passed the form's validation keeps a stock without negative quantities, in create and edit mode |
| App.SavedEditLandsOnItem | App.tsx:35-42 | saving an edited draft turns that item into the draft's data under its own id, with a fresh time stamp |
| App.AppState.Visible | App.tsx:50-74 | the list shows an order-preserving subsequence of the collection, and the whole collection with filter `'all'` and no search |
| App.AppState.constructor | App.tsx:20-23 | the screen starts with the modal closed, nothing being edited, no search and filter `'all'` |
| App.AppState.OpenModal | App.tsx:25-28 | opening the modal sets the edited item (or none) and shows it |
| App.AppState.CloseModal | App.tsx:30-33 | closing hides the modal and clears the edited item |
| App.AppState.SaveItem | App.tsx:35-42 | a record with an id updates that id with its data, bare data is added to the end (the collection becomes `SavedCollection`); either way the modal closes |
| App.AppState.DeleteItem | App.tsx:44-48 | the item is deleted only if the user confirms; otherwise nothing changes |
| App.AppState.SetSearchTerm | components/FilterControls.tsx:29 | the search box sets the search term |
| App.AppState.SetFilter | components/FilterControls.tsx:37 | a filter button sets the filter |

## Left out

- Rendering is not modelled: JSX, CSS classes and icons, `Header.tsx`, `InventoryList.tsx`, and the option list of `FilterControls.tsx`. The four filter options are the four `FilterType` members.
- InventoryItemCard.GetStatusInfo: the colour classes it returns are left out, being pure CSS; its status and label are modelled.
- The AI request itself (services/geminiService.ts) is not modelled. It is a network call. Its settled result is the `SuggestOutcome` input. JSON of the wrong shape arrives as `NoSuggestion`, because the service returns `null` for it (services/geminiService.ts:47-51). Text that `JSON.parse` rejects, like any other error, is rethrown by the service and arrives as `RequestFailed` (services/geminiService.ts:45, 53-55).
- Local storage and JSON are not modelled. A snapshot is `Absent`, `Corrupt` or `Stored(items)`.
- UseInventory.Load: the code returns any parseable JSON without checking that it is a list of items, and the model has no snapshot for that case.
- UseInventory.InitialInventory: the four seed items share one time stamp, the parameter `timestamp`; the code stamps them with four separate `new Date()` calls made when the module is evaluated.
- The clock is not modelled: `getTime()` and `toISOString()` are the parameters `millis` and `timestamp`. The two are separate `Date` objects in `addItem` itself.
- React scheduling is not modelled. In the model, the save effect runs right after each state change; React may batch several changes into one render and save once.
- Async interleaving is modelled only by splitting `handleAiSuggest` at its `await` (`BeginSuggest`, `FinishSuggest`). A suggestion that settles after the form was closed cannot reach a later form. App mounts the form only while the modal is open (App.tsx:82), so closing unmounts it, and the late setters act on the discarded instance. In the model each opening is a fresh `ItemForm`, and `AppState` holds none.
- `window.confirm` is not modelled; it is the parameter `confirmed`.
- JavaScript numbers are not modelled. Quantities and thresholds are integers, so NaN, fractions and `Number(...)` coercion of non-numeric input are not represented.
- `toLowerCase` is ASCII-only here. Full Unicode case mapping is not represented.
- The form's `if (!isOpen) return null` is not modelled; it only decides rendering.
- ItemFormModal.ItemForm.Submit: of the browser's constraint validation, only `required` (a non-empty value) and `min="0"` are modelled; a number input's step and bad-input checks have no counterpart, since quantities are integers here.
