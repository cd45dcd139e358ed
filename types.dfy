/**
 * The data types of the inventory tracker (types.ts): the stock status enum,
 * an inventory item, the item data the form edits, and the filter choices of
 * the list view.
 */
module Types {

  import Wrappers

  /** Derived status of an item; `Tag` is the enum's string value. */
  datatype StockStatus = InStock | LowStock | OutOfStock {
    function Tag(): string
    {
      match this
      case InStock => "in-stock"
      case LowStock => "low"
      case OutOfStock => "out-of-stock"
    }
  }

  const AllStatuses: seq<StockStatus> := [InStock, LowStock, OutOfStock]

  /** The list filter: `'all'` or one of the three status strings. */
  datatype FilterType = All | InStockOnly | LowOnly | OutOfStockOnly {
    function Tag(): string
    {
      match this
      case All => "all"
      case InStockOnly => "in-stock"
      case LowOnly => "low"
      case OutOfStockOnly => "out-of-stock"
    }
  }

  const AllFilters: seq<FilterType> := [All, InStockOnly, LowOnly, OutOfStockOnly]

  /** A stored item. Quantities and thresholds are integers; the timestamp is an ISO-8601 string. */
  datatype InventoryItem = InventoryItem(
    id: string,
    name: string,
    quantity: int,
    unit: string,
    lowStockThreshold: int,
    lastUpdated: string)

  /** An item without its `id` and `lastUpdated` (`Omit<InventoryItem, 'id' | 'lastUpdated'>`). */
  datatype InventoryItemData = InventoryItemData(
    name: string,
    quantity: int,
    unit: string,
    lowStockThreshold: int)

  function DataOf(item: InventoryItem): InventoryItemData
  {
    InventoryItemData(item.name, item.quantity, item.unit, item.lowStockThreshold)
  }

  /** `{ ...data, id, lastUpdated }` */
  function WithMeta(data: InventoryItemData, id: string, lastUpdated: string): InventoryItem
  {
    InventoryItem(id, data.name, data.quantity, data.unit, data.lowStockThreshold, lastUpdated)
  }

  /** An item is exactly its data plus an id and a timestamp, in both directions. */
  lemma ItemIsDataWithMeta(item: InventoryItem, data: InventoryItemData, id: string, lastUpdated: string)
    ensures WithMeta(DataOf(item), item.id, item.lastUpdated) == item
    ensures DataOf(WithMeta(data, id, lastUpdated)) == data
    ensures WithMeta(data, id, lastUpdated).id == id && WithMeta(data, id, lastUpdated).lastUpdated == lastUpdated
  {
  }

  /** `StockStatus` has exactly three values, with three different tags. */
  lemma StockStatusHasThreeValues()
    ensures forall s: StockStatus :: s in AllStatuses
    ensures |AllStatuses| == 3
    ensures forall i, j :: 0 <= i < j < |AllStatuses| ==> AllStatuses[i].Tag() != AllStatuses[j].Tag()
  {
    forall s: StockStatus ensures s in AllStatuses {
      match s
      case InStock => assert AllStatuses[0] == s;
      case LowStock => assert AllStatuses[1] == s;
      case OutOfStock => assert AllStatuses[2] == s;
    }
  }

  /** `FilterType` has exactly four members, with four different tags. */
  lemma FilterTypeHasFourValues()
    ensures forall f: FilterType :: f in AllFilters
    ensures |AllFilters| == 4
    ensures forall i, j :: 0 <= i < j < |AllFilters| ==> AllFilters[i].Tag() != AllFilters[j].Tag()
  {
    forall f: FilterType ensures f in AllFilters {
      match f
      case All => assert AllFilters[0] == f;
      case InStockOnly => assert AllFilters[1] == f;
      case LowOnly => assert AllFilters[2] == f;
      case OutOfStockOnly => assert AllFilters[3] == f;
    }
  }

  /** The filter whose string is the tag of `s`. */
  function FilterFor(s: StockStatus): (f: FilterType)
    ensures f != All && f.Tag() == s.Tag()
  {
    match s
    case InStock => InStockOnly
    case LowStock => LowOnly
    case OutOfStock => OutOfStockOnly
  }

  /** The status whose tag is the string of `f`, if any. */
  function StatusFor(f: FilterType): (s: Wrappers.Option<StockStatus>)
    ensures s.None? <==> f == All
    ensures s.Some? ==> s.value.Tag() == f.Tag()
  {
    match f
    case All => Wrappers.None
    case InStockOnly => Wrappers.Some(InStock)
    case LowOnly => Wrappers.Some(LowStock)
    case OutOfStockOnly => Wrappers.Some(OutOfStock)
  }

  /** The status tags are exactly the filter strings other than `'all'`. */
  lemma StatusTagsAreFilterTags(s: StockStatus, f: FilterType)
    ensures f.Tag() == s.Tag() <==> f != All && StatusFor(f) == Wrappers.Some(s)
    ensures All.Tag() != s.Tag()
  {
  }
}
