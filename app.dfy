/**
 * The top-level screen (App.tsx): the filtered and searched view of the
 * collection, and the modal state with the save routing that sends a
 * submitted record to `updateItem` or `addItem`.
 *
 * Lowercasing is ASCII-only here: `toLowerCase` on other characters (Hangul
 * has no case) is the identity in this model.
 */
module App {

  import opened Wrappers
  import opened Seqs
  import opened Types
  import InventoryItemCard
  import UseInventory
  import ItemFormModal

  // ---------------------------------------------------------------------------
  // The filter view

  /**
   * The status string the filter computes inline, without `getStatusInfo`; it
   * is the tag of the card's classification, for every quantity and threshold.
   */
  function InlineStatus(quantity: int, threshold: int): (r: string)
    ensures r == InventoryItemCard.GetStatusInfo(quantity, threshold).status.Tag()
  {
    if quantity == 0 then "out-of-stock" else if quantity <= threshold then "low" else "in-stock"
  }

  function AsciiLower(c: char): char
  {
    if 'A' <= c <= 'Z' then ((c as int) + 32) as char else c
  }

  /** `toLowerCase`: same length, each ASCII capital turned into its small letter, every other character kept. */
  function ToLower(s: string): (r: string)
    ensures |r| == |s|
    ensures forall i :: 0 <= i < |s| && 'A' <= s[i] <= 'Z' ==> r[i] == ((s[i] as int) + 32) as char
    ensures forall i :: 0 <= i < |r| ==> !('A' <= r[i] <= 'Z')
    ensures forall i :: 0 <= i < |s| && !('A' <= s[i] <= 'Z') ==> r[i] == s[i]
  {
    seq(|s|, i requires 0 <= i < |s| => AsciiLower(s[i]))
  }

  lemma ToLowerIdempotent(s: string)
    ensures ToLower(ToLower(s)) == ToLower(s)
  {
    assert forall i :: 0 <= i < |s| ==> AsciiLower(AsciiLower(s[i])) == AsciiLower(s[i]);
  }

  /** `hay.includes(needle)`: `needle` occurs in `hay` as a contiguous block; the empty needle occurs everywhere. */
  predicate Includes(hay: string, needle: string)
    ensures needle == [] ==> Includes(hay, needle)
  {
    needle <= hay || (hay != [] && Includes(hay[1..], needle))
  }

  /** `needle` starts at position `k` of `hay`. */
  predicate OccursAt(hay: string, needle: string, k: int)
  {
    0 <= k <= |hay| - |needle| && hay[k..k + |needle|] == needle
  }

  /** `includes` means: there is a position where `needle` starts. */
  lemma {:induction false} IncludesAt(hay: string, needle: string)
    ensures Includes(hay, needle) <==> exists k :: OccursAt(hay, needle, k)
  {
    if needle <= hay {
      assert OccursAt(hay, needle, 0);
    } else if hay != [] {
      IncludesAt(hay[1..], needle);
      if Includes(hay[1..], needle) {
        var k :| OccursAt(hay[1..], needle, k);
        assert OccursAt(hay, needle, k + 1);
      }
      if exists k :: OccursAt(hay, needle, k) {
        var k :| OccursAt(hay, needle, k);
        assert k != 0;
        assert OccursAt(hay[1..], needle, k - 1);
      }
    } else {
      forall k ensures !OccursAt(hay, needle, k) {
      }
    }
  }

  /** The status stage keeps an item iff the filter is `'all'` or names the card's status of the item. */
  predicate PassesStatus(filter: FilterType, item: InventoryItem)
    ensures PassesStatus(filter, item) <==>
      filter == All || StatusFor(filter) == Some(InventoryItemCard.Classify(item))
  {
    StatusTagsAreFilterTags(InventoryItemCard.Classify(item), filter);
    if filter == All then true
    else filter.Tag() == InlineStatus(item.quantity, item.lowStockThreshold)
  }

  /** The search stage: an empty term matches every name, and so does any term that, lowercased, begins the lowercased name. */
  predicate MatchesSearch(searchTerm: string, item: InventoryItem)
    ensures searchTerm == "" ==> MatchesSearch(searchTerm, item)
    ensures ToLower(searchTerm) <= ToLower(item.name) ==> MatchesSearch(searchTerm, item)
  {
    Includes(ToLower(item.name), ToLower(searchTerm))
  }

  /** The callback of the status `.filter`. */
  function StatusStage(filter: FilterType): InventoryItem -> bool
  {
    item => PassesStatus(filter, item)
  }

  /** The callback of the search `.filter`. */
  function SearchStage(searchTerm: string): InventoryItem -> bool
  {
    item => MatchesSearch(searchTerm, item)
  }

  /** `filteredInventory`: keep by status filter, then by case-insensitive name search. */
  function FilteredInventory(inventory: seq<InventoryItem>, filter: FilterType, searchTerm: string): (r: seq<InventoryItem>)
    ensures |r| <= |inventory|
    ensures forall i :: 0 <= i < |r| ==> r[i] in inventory && PassesStatus(filter, r[i]) && MatchesSearch(searchTerm, r[i])
    ensures forall i :: 0 <= i < |inventory| && PassesStatus(filter, inventory[i]) && MatchesSearch(searchTerm, inventory[i]) ==>
      inventory[i] in r
  {
    Filter(SearchStage(searchTerm), Filter(StatusStage(filter), inventory))
  }

  /** Both conditions at once. */
  function Keeps(filter: FilterType, searchTerm: string): InventoryItem -> bool
  {
    item => PassesStatus(filter, item) && MatchesSearch(searchTerm, item)
  }

  /** The two stages are one filter by the conjunction of their conditions. */
  lemma {:induction false} FilteredIsOnePass(inventory: seq<InventoryItem>, filter: FilterType, searchTerm: string)
    ensures FilteredInventory(inventory, filter, searchTerm) == Filter(Keeps(filter, searchTerm), inventory)
  {
    var byStatus, bySearch := StatusStage(filter), SearchStage(searchTerm);
    FilterFusion(bySearch, byStatus, Keeps(filter, searchTerm), inventory);
  }

  /**
   * The view is an order-preserving subsequence of the collection, holding an
   * item iff it passes the status filter and its lowercased name contains
   * the lowercased search term.
   */
  lemma {:induction false} FilteredSpec(inventory: seq<InventoryItem>, filter: FilterType, searchTerm: string)
    ensures IsSubsequence(FilteredInventory(inventory, filter, searchTerm), inventory)
    ensures forall x :: x in FilteredInventory(inventory, filter, searchTerm) <==>
      x in inventory && (filter == All || StatusFor(filter) == Some(InventoryItemCard.Classify(x))) &&
      Includes(ToLower(x.name), ToLower(searchTerm))
  {
    var p := Keeps(filter, searchTerm);
    FilteredIsOnePass(inventory, filter, searchTerm);
    FilterIsSubsequence(p, inventory);
    var r := FilteredInventory(inventory, filter, searchTerm);
    forall x ensures x in r <==>
      x in inventory && (filter == All || StatusFor(filter) == Some(InventoryItemCard.Classify(x))) &&
      Includes(ToLower(x.name), ToLower(searchTerm))
    {
      if x in inventory && p(x) {
        var k :| 0 <= k < |inventory| && inventory[k] == x;
      }
      if x in r {
        var k :| 0 <= k < |r| && r[k] == x;
      }
    }
  }

  /** With filter `'all'` and an empty search term the view is the whole collection. */
  lemma {:induction false} ShowAllIsIdentity(inventory: seq<InventoryItem>)
    ensures FilteredInventory(inventory, All, "") == inventory
  {
    var byStatus, bySearch := StatusStage(All), SearchStage("");
    FilterKeepsAll(byStatus, inventory);
    forall i | 0 <= i < |inventory| ensures bySearch(inventory[i]) {
      assert ToLower("") == "";
      assert [] <= ToLower(inventory[i].name);
    }
    FilterKeepsAll(bySearch, inventory);
  }

  /** Searching first and then filtering by status gives the same view. */
  lemma {:induction false} StagesCommute(inventory: seq<InventoryItem>, filter: FilterType, searchTerm: string)
    ensures FilteredInventory(inventory, filter, searchTerm) ==
      Filter(StatusStage(filter), Filter(SearchStage(searchTerm), inventory))
  {
    FilterCommutes(SearchStage(searchTerm), StatusStage(filter), inventory);
  }

  /** Filter `'low'` with no search term shows exactly the items the card calls low stock, in order. */
  lemma {:induction false} LowFilterShowsLowStock(inventory: seq<InventoryItem>)
    ensures FilteredInventory(inventory, LowOnly, "") ==
      Filter((item: InventoryItem) => InventoryItemCard.Classify(item) == LowStock, inventory)
  {
    var byStatus, bySearch := StatusStage(LowOnly), SearchStage("");
    var low := Filter(byStatus, inventory);
    forall i | 0 <= i < |low| ensures bySearch(low[i]) {
      assert ToLower("") == "";
      assert [] <= ToLower(low[i].name);
    }
    FilterKeepsAll(bySearch, low);
    forall i | 0 <= i < |inventory|
      ensures byStatus(inventory[i]) == (InventoryItemCard.Classify(inventory[i]) == LowStock)
    {
    }
    FilterExtensional(byStatus, (item: InventoryItem) => InventoryItemCard.Classify(item) == LowStock, inventory);
  }

  /** The search ignores ASCII case on both sides: "kim" finds "Kimchi Sauce", and so does "KIM". */
  lemma SearchIgnoresCase(searchTerm: string, item: InventoryItem)
    ensures MatchesSearch(ToLower(searchTerm), item) == MatchesSearch(searchTerm, item)
    ensures MatchesSearch("kim", InventoryItem("5", "Kimchi Sauce", 1, "kg", 1, "t"))
    ensures MatchesSearch("KIM", InventoryItem("5", "Kimchi Sauce", 1, "kg", 1, "t"))
  {
    ToLowerIdempotent(searchTerm);
    assert ToLower("kim") == "kim";
    assert ToLower("KIM") == "kim";
    assert "kim" <= ToLower("Kimchi Sauce");
  }

  /** Saving an edited draft lands on that item: its data becomes the draft and its time stamp is refreshed. */
  lemma {:induction false} SavedEditLandsOnItem(s: seq<InventoryItem>, k: nat, draft: InventoryItemData, timestamp: string)
    requires k < |s|
    ensures var record := ItemFormModal.SubmittedRecord(Some(s[k]), draft);
      record.Edited? &&
      UseInventory.Updated(s, record.item.id, UseInventory.FullPatch(DataOf(record.item)), timestamp)[k]
        == WithMeta(draft, s[k].id, timestamp)
  {
    var record := ItemFormModal.SubmittedRecord(Some(s[k]), draft);
    UseInventory.UpdatedSpec(s, record.item.id, UseInventory.FullPatch(DataOf(record.item)), timestamp);
  }

  /**
   * The collection after `handleSaveItem(record)`: a record with an id goes to
   * `updateItem(record.id, record)`, bare data to `addItem`. The edited record
   * also carries `id` and `lastUpdated`, which the spread writes over the
   * matched item; the id is the matched one and the time stamp is overwritten
   * at once, so the update amounts to the four data fields.
   */
  function SavedCollection(s: seq<InventoryItem>, record: ItemFormModal.Submission, millis: nat, timestamp: string)
    : (r: seq<InventoryItem>)
    ensures record.Edited? ==> |r| == |s| && forall i :: 0 <= i < |s| ==> r[i].id == s[i].id
    ensures record.NewData? ==> |r| == |s| + 1 && r[..|s|] == s && DataOf(r[|s|]) == record.data
  {
    match record
    case Edited(item) => UseInventory.Updated(s, item.id, UseInventory.FullPatch(DataOf(item)), timestamp)
    case NewData(data) =>
      assert (s + [UseInventory.NewItem(data, millis, timestamp)])[..|s|] == s;
      s + [UseInventory.NewItem(data, millis, timestamp)]
  }

  /**
   * A record that passed the form's constraint validation never brings a
   * negative quantity in: saving it keeps a stock without negative quantities,
   * and so keeps the dashboard's counts equal to the card's classification.
   */
  lemma {:induction false} ValidatedSaveKeepsStockNonNegative(s: seq<InventoryItem>, item: Option<InventoryItem>,
                                                               draft: InventoryItemData, millis: nat,
                                                               timestamp: string)
    requires UseInventory.NonNegativeStock(s) && ItemFormModal.PassesConstraints(draft)
    ensures UseInventory.NonNegativeStock(SavedCollection(s, ItemFormModal.SubmittedRecord(item, draft), millis, timestamp))
  {
    var record := ItemFormModal.SubmittedRecord(item, draft);
    if record.Edited? {
      UseInventory.UpdatedSpec(s, record.item.id, UseInventory.FullPatch(DataOf(record.item)), timestamp);
    }
  }

  // ---------------------------------------------------------------------------
  // The screen's state

  class AppState {
    const inventory: UseInventory.Inventory
    var isModalOpen: bool
    var editingItem: Option<InventoryItem>
    var searchTerm: string
    var filter: FilterType

    constructor (inventory: UseInventory.Inventory)
      ensures this.inventory == inventory
      ensures !isModalOpen && editingItem == None && searchTerm == "" && filter == All
    {
      this.inventory := inventory;
      isModalOpen, editingItem := false, None;
      searchTerm, filter := "", All;
    }

    /** What the list shows: the collection in its order, thinned by the two controls, and all of it when both are at rest. */
    function Visible(): (r: seq<InventoryItem>)
      reads this, inventory
      ensures IsSubsequence(r, inventory.items)
      ensures filter == All && searchTerm == "" ==> r == inventory.items
    {
      FilteredSpec(inventory.items, filter, searchTerm);
      ShowAllIsIdentity(inventory.items);
      FilteredInventory(inventory.items, filter, searchTerm)
    }

    /** `handleOpenModal(item?)`: open the form, editing `item` or creating a new one. */
    method OpenModal(item: Option<InventoryItem>)
      modifies this`isModalOpen, this`editingItem
      ensures isModalOpen && editingItem == item
    {
      editingItem := item;
      isModalOpen := true;
    }

    /** `handleCloseModal`. */
    method CloseModal()
      modifies this`isModalOpen, this`editingItem
      ensures !isModalOpen && editingItem == None
    {
      isModalOpen := false;
      editingItem := None;
    }

    /** `handleSaveItem`: route the record to `updateItem` or `addItem`, then close the modal. */
    method SaveItem(record: ItemFormModal.Submission, millis: nat, timestamp: string, saveSucceeds: bool)
      modifies this`isModalOpen, this`editingItem, inventory, inventory.storage
      ensures record.Edited? ==>
        inventory.items == UseInventory.Updated(old(inventory.items), record.item.id,
                                                UseInventory.FullPatch(DataOf(record.item)), timestamp)
      ensures record.NewData? ==>
        inventory.items == old(inventory.items) + [UseInventory.NewItem(record.data, millis, timestamp)]
      ensures inventory.items == SavedCollection(old(inventory.items), record, millis, timestamp)
      ensures !isModalOpen && editingItem == None
      ensures saveSucceeds ==> inventory.Persisted()
      ensures !saveSucceeds ==> inventory.storage.snapshot == old(inventory.storage.snapshot)
    {
      match record {
        case Edited(item) =>
          inventory.UpdateItem(item.id, UseInventory.FullPatch(DataOf(item)), timestamp, saveSucceeds);
        case NewData(data) =>
          inventory.AddItem(data, millis, timestamp, saveSucceeds);
      }
      CloseModal();
    }

    /** `handleDeleteItem`: delete only when the user confirms. */
    method DeleteItem(id: string, confirmed: bool, saveSucceeds: bool)
      modifies inventory, inventory.storage
      ensures confirmed ==> inventory.items == UseInventory.Removed(old(inventory.items), id)
      ensures confirmed && saveSucceeds ==> inventory.Persisted()
      ensures !(confirmed && saveSucceeds) ==> inventory.storage.snapshot == old(inventory.storage.snapshot)
      ensures !confirmed ==> inventory.items == old(inventory.items)
    {
      if confirmed {
        inventory.DeleteItem(id, saveSucceeds);
      }
    }

    /** The search box's change handler. */
    method SetSearchTerm(value: string)
      modifies this`searchTerm
      ensures searchTerm == value
    {
      searchTerm := value;
    }

    /** The filter buttons' handler. */
    method SetFilter(value: FilterType)
      modifies this`filter
      ensures filter == value
    {
      filter := value;
    }
  }
}
