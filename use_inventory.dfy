/**
 * The inventory state layer (hooks/useInventory.ts): one collection of items,
 * loaded once from local storage or from a seed list, replaced by each of the
 * four operations, and written back to storage after every change.
 *
 * The clock is a parameter: `millis` stands for `new Date().getTime()` and
 * `timestamp` for `new Date().toISOString()`. Whether a write to storage
 * succeeds (it can fail, e.g. when the quota is exceeded) is the parameter
 * `saveSucceeds`. JSON encoding is not modelled: a snapshot holds the items.
 */
module UseInventory {

  import opened Wrappers
  import opened Seqs
  import opened Types

  // ---------------------------------------------------------------------------
  // Storage

  /**
   * What storage holds under the inventory key: nothing (`getItem` gave null
   * or the empty string, both falsy), text that `JSON.parse` rejects (or a
   * `getItem` that throws), or a parsed collection.
   */
  datatype Snapshot = Absent | Corrupt | Stored(items: seq<InventoryItem>)

  /** The browser's local storage, reduced to the one key the hook uses. */
  class Storage {
    var snapshot: Snapshot

    constructor (initial: Snapshot)
      ensures snapshot == initial
    {
      snapshot := initial;
    }
  }

  /**
   * The seed list used when storage yields no collection. The four items are
   * stamped by four `new Date()` calls when the module is evaluated; here they
   * share the one time stamp `timestamp`.
   */
  function InitialInventory(timestamp: string): (r: seq<InventoryItem>)
    ensures |r| == 4
    ensures forall i :: 0 <= i < |r| ==> r[i].lastUpdated == timestamp
    ensures NonNegativeStock(r)
  {
    [ InventoryItem("1", "삼겹살", 10, "kg", 5, timestamp),
      InventoryItem("2", "배달용기(대)", 50, "개", 100, timestamp),
      InventoryItem("3", "김치", 2, "kg", 5, timestamp),
      InventoryItem("4", "공기밥", 0, "개", 10, timestamp) ]
  }

  /** The lazy initial state: the stored collection when there is one, the seed otherwise. It never fails. */
  function Load(snapshot: Snapshot, seedTimestamp: string): (r: seq<InventoryItem>)
    ensures snapshot.Stored? ==> r == snapshot.items
    ensures !snapshot.Stored? ==> r == InitialInventory(seedTimestamp)
  {
    match snapshot
    case Stored(items) => items
    case _ => InitialInventory(seedTimestamp)
  }

  // ---------------------------------------------------------------------------
  // Ids

  function Ids(s: seq<InventoryItem>): (r: seq<string>)
    ensures |r| == |s| && forall i :: 0 <= i < |s| ==> r[i] == s[i].id
  {
    seq(|s|, i requires 0 <= i < |s| => s[i].id)
  }

  predicate UniqueIds(s: seq<InventoryItem>)
  {
    forall i, j :: 0 <= i < j < |s| ==> s[i].id != s[j].id
  }

  /** No item has a negative quantity. */
  predicate NonNegativeStock(s: seq<InventoryItem>)
  {
    forall i :: 0 <= i < |s| ==> s[i].quantity >= 0
  }

  /** The seed's ids are "1" to "4", all different. */
  lemma SeedIdsAreDistinct(timestamp: string)
    ensures |InitialInventory(timestamp)| == 4
    ensures Ids(InitialInventory(timestamp)) == ["1", "2", "3", "4"]
    ensures UniqueIds(InitialInventory(timestamp))
  {
    var s := InitialInventory(timestamp);
    assert Ids(s) == [s[0].id, s[1].id, s[2].id, s[3].id];
  }

  function DigitChar(d: nat): (c: char)
    requires d < 10
    ensures '0' <= c <= '9'
  {
    (('0' as int) + d) as char
  }

  /** The decimal numeral of `n` without leading zeros (`Number.prototype.toString()`). */
  function Decimal(n: nat): (r: string)
    ensures |r| >= 1
    ensures n >= 10 ==> |r| >= 2
    ensures forall i :: 0 <= i < |r| ==> '0' <= r[i] <= '9'
  {
    if n < 10 then [DigitChar(n)] else Decimal(n / 10) + [DigitChar(n % 10)]
  }

  /** The id `addItem` gives a new item: its creation time in milliseconds, as a decimal string. */
  function MillisId(millis: nat): (r: string)
    ensures |r| >= 1 && forall i :: 0 <= i < |r| ==> '0' <= r[i] <= '9'
  {
    Decimal(millis)
  }

  /** Different numbers have different numerals. */
  lemma {:induction false} DecimalInjective(a: nat, b: nat)
    requires Decimal(a) == Decimal(b)
    ensures a == b
  {
    if a >= 10 && b >= 10 {
      var da, db := Decimal(a), Decimal(b);
      assert da[..|da| - 1] == Decimal(a / 10);
      assert db[..|db| - 1] == Decimal(b / 10);
      DecimalInjective(a / 10, b / 10);
      assert DigitChar(a % 10) == da[|da| - 1] == db[|db| - 1] == DigitChar(b % 10);
    }
  }

  /** Items created in different milliseconds get different ids ... */
  lemma DistinctMillisGiveDistinctIds(m1: nat, m2: nat)
    ensures MillisId(m1) == MillisId(m2) <==> m1 == m2
  {
    if MillisId(m1) == MillisId(m2) {
      DecimalInjective(m1, m2);
    }
  }

  // ---------------------------------------------------------------------------
  // The new collections the operations compute

  /** `{ ...itemData, id, lastUpdated }` in `addItem`, with the id taken from the clock. */
  function NewItem(data: InventoryItemData, millis: nat, timestamp: string): (r: InventoryItem)
    ensures DataOf(r) == data
    ensures r.id == MillisId(millis) && r.lastUpdated == timestamp
  {
    WithMeta(data, MillisId(millis), timestamp)
  }

  /** ... but two items created in the same millisecond share an id, so the collection no longer has unique ids. */
  lemma SameMillisecondAddsCollide(s: seq<InventoryItem>, d1: InventoryItemData, d2: InventoryItemData,
                                  millis: nat, t1: string, t2: string)
    ensures !UniqueIds(s + [NewItem(d1, millis, t1)] + [NewItem(d2, millis, t2)])
  {
    var r := s + [NewItem(d1, millis, t1)] + [NewItem(d2, millis, t2)];
    assert r[|s|].id == r[|s| + 1].id;
  }

  /** Appending keeps ids unique exactly when the new id is not already present. */
  lemma {:induction false} AppendKeepsUniqueIds(s: seq<InventoryItem>, x: InventoryItem)
    ensures UniqueIds(s + [x]) <==> UniqueIds(s) && x.id !in Ids(s)
  {
    var r := s + [x];
    if UniqueIds(r) {
      forall i, j | 0 <= i < j < |s| ensures s[i].id != s[j].id {
        assert r[i] == s[i] && r[j] == s[j];
      }
      forall k | 0 <= k < |s| ensures Ids(s)[k] != x.id {
        assert r[k].id != r[|s|].id;
      }
    }
  }

  /** `Partial<InventoryItemData>`: each field either supplied or left out. */
  datatype ItemPatch = ItemPatch(
    name: Option<string>,
    quantity: Option<int>,
    unit: Option<string>,
    lowStockThreshold: Option<int>)

  /** The patch that supplies every field of `data`. */
  function FullPatch(data: InventoryItemData): ItemPatch
  {
    ItemPatch(Some(data.name), Some(data.quantity), Some(data.unit), Some(data.lowStockThreshold))
  }

  /** `{ ...item, ...updatedData, lastUpdated }` */
  function Merge(item: InventoryItem, patch: ItemPatch, timestamp: string): (r: InventoryItem)
    ensures r.id == item.id && r.lastUpdated == timestamp
  {
    item.(name := patch.name.GetOr(item.name),
          quantity := patch.quantity.GetOr(item.quantity),
          unit := patch.unit.GetOr(item.unit),
          lowStockThreshold := patch.lowStockThreshold.GetOr(item.lowStockThreshold),
          lastUpdated := timestamp)
  }

  /** Merging keeps the id, stamps the time, takes every supplied field and keeps every other one. */
  lemma MergeTakesSuppliedFields(item: InventoryItem, patch: ItemPatch, timestamp: string, data: InventoryItemData)
    ensures Merge(item, patch, timestamp).id == item.id
    ensures Merge(item, patch, timestamp).lastUpdated == timestamp
    ensures patch.name.Some? ==> Merge(item, patch, timestamp).name == patch.name.value
    ensures patch.name.None? ==> Merge(item, patch, timestamp).name == item.name
    ensures patch.quantity.Some? ==> Merge(item, patch, timestamp).quantity == patch.quantity.value
    ensures patch.quantity.None? ==> Merge(item, patch, timestamp).quantity == item.quantity
    ensures patch.unit.Some? ==> Merge(item, patch, timestamp).unit == patch.unit.value
    ensures patch.unit.None? ==> Merge(item, patch, timestamp).unit == item.unit
    ensures patch.lowStockThreshold.Some? ==> Merge(item, patch, timestamp).lowStockThreshold == patch.lowStockThreshold.value
    ensures patch.lowStockThreshold.None? ==> Merge(item, patch, timestamp).lowStockThreshold == item.lowStockThreshold
    ensures DataOf(Merge(item, FullPatch(data), timestamp)) == data
    ensures Merge(Merge(item, patch, timestamp), patch, timestamp) == Merge(item, patch, timestamp)
  {
  }

  /** `{ ...item, quantity: newQuantity, lastUpdated }` */
  function SetQuantity(item: InventoryItem, newQuantity: int, timestamp: string): (r: InventoryItem)
    ensures r.id == item.id && r.lastUpdated == timestamp
    ensures DataOf(r) == DataOf(item).(quantity := newQuantity)
  {
    item.(quantity := newQuantity, lastUpdated := timestamp)
  }

  /** `s.map(item => item.id === id ? f(item) : item)` */
  function MapMatching(s: seq<InventoryItem>, id: string, f: InventoryItem -> InventoryItem): (r: seq<InventoryItem>)
    ensures |r| == |s|
    ensures forall i :: 0 <= i < |s| ==> r[i] == if s[i].id == id then f(s[i]) else s[i]
  {
    if s == [] then []
    else [if s[0].id == id then f(s[0]) else s[0]] + MapMatching(s[1..], id, f)
  }

  /** The collection after `updateItem(id, patch)`. */
  function Updated(s: seq<InventoryItem>, id: string, patch: ItemPatch, timestamp: string): (r: seq<InventoryItem>)
    ensures |r| == |s|
    ensures forall i :: 0 <= i < |s| ==> r[i].id == s[i].id
  {
    MapMatching(s, id, item => Merge(item, patch, timestamp))
  }

  /** The collection after `updateStock(id, newQuantity)`. */
  function Restocked(s: seq<InventoryItem>, id: string, newQuantity: int, timestamp: string): (r: seq<InventoryItem>)
    ensures |r| == |s|
    ensures forall i :: 0 <= i < |s| ==> r[i].id == s[i].id
    ensures forall i :: 0 <= i < |s| ==> r[i].quantity == if s[i].id == id then newQuantity else s[i].quantity
  {
    MapMatching(s, id, item => SetQuantity(item, newQuantity, timestamp))
  }

  /** The collection after `deleteItem(id)`. */
  function Removed(s: seq<InventoryItem>, id: string): (r: seq<InventoryItem>)
    ensures |r| <= |s|
    ensures forall i :: 0 <= i < |r| ==> r[i] in s && r[i].id != id
  {
    Filter((item: InventoryItem) => item.id != id, s)
  }

  // ---------------------------------------------------------------------------
  // What the computed collections satisfy

  /** `updateItem` keeps length, order and ids; it merges into the matching items, leaves the others alone, and is a no-op for an absent id. */
  lemma {:induction false} UpdatedSpec(s: seq<InventoryItem>, id: string, patch: ItemPatch, timestamp: string)
    ensures |Updated(s, id, patch, timestamp)| == |s|
    ensures Ids(Updated(s, id, patch, timestamp)) == Ids(s)
    ensures forall i :: 0 <= i < |s| && s[i].id != id ==> Updated(s, id, patch, timestamp)[i] == s[i]
    ensures forall i :: 0 <= i < |s| && s[i].id == id ==> Updated(s, id, patch, timestamp)[i] == Merge(s[i], patch, timestamp)
    ensures id !in Ids(s) ==> Updated(s, id, patch, timestamp) == s
    ensures UniqueIds(Updated(s, id, patch, timestamp)) <==> UniqueIds(s)
  {
    var r := Updated(s, id, patch, timestamp);
    assert forall i :: 0 <= i < |s| ==> r[i].id == s[i].id;
    if id !in Ids(s) {
      assert forall i :: 0 <= i < |s| ==> s[i].id != id by {
        forall i | 0 <= i < |s| ensures s[i].id != id {
          assert Ids(s)[i] == s[i].id;
        }
      }
    }
  }

  /** `updateStock` sets the matching items' quantity to exactly `newQuantity` and their time stamp, and changes nothing else. */
  lemma {:induction false} RestockedSpec(s: seq<InventoryItem>, id: string, newQuantity: int, timestamp: string)
    ensures |Restocked(s, id, newQuantity, timestamp)| == |s|
    ensures Ids(Restocked(s, id, newQuantity, timestamp)) == Ids(s)
    ensures forall i :: 0 <= i < |s| && s[i].id != id ==> Restocked(s, id, newQuantity, timestamp)[i] == s[i]
    ensures forall i :: 0 <= i < |s| && s[i].id == id ==>
      Restocked(s, id, newQuantity, timestamp)[i].quantity == newQuantity &&
      Restocked(s, id, newQuantity, timestamp)[i].lastUpdated == timestamp &&
      Restocked(s, id, newQuantity, timestamp)[i].(quantity := s[i].quantity, lastUpdated := s[i].lastUpdated) == s[i]
  {
    var r := Restocked(s, id, newQuantity, timestamp);
    assert forall i :: 0 <= i < |s| ==> r[i].id == s[i].id;
  }

  /** `updateStock` is `updateItem` with only the quantity supplied. */
  lemma {:induction false} RestockIsQuantityPatch(s: seq<InventoryItem>, id: string, newQuantity: int, timestamp: string)
    ensures Restocked(s, id, newQuantity, timestamp) == Updated(s, id, ItemPatch(None, Some(newQuantity), None, None), timestamp)
  {
    var r1, r2 := Restocked(s, id, newQuantity, timestamp), Updated(s, id, ItemPatch(None, Some(newQuantity), None, None), timestamp);
    assert forall i :: 0 <= i < |s| ==> r1[i] == r2[i];
  }

  /** `updateStock` does not clamp: a negative quantity is stored as given. */
  lemma RestockDoesNotClamp(s: seq<InventoryItem>, id: string, newQuantity: int, timestamp: string)
    requires id in Ids(s) && newQuantity < 0
    ensures exists i :: 0 <= i < |s| && Restocked(s, id, newQuantity, timestamp)[i].quantity == newQuantity < 0
  {
    var k :| 0 <= k < |s| && Ids(s)[k] == id;
    assert Restocked(s, id, newQuantity, timestamp)[k].quantity == newQuantity;
  }

  /** Filtering keeps ids unique. */
  lemma {:induction false} FilterKeepsUniqueIds(p: InventoryItem -> bool, s: seq<InventoryItem>)
    requires UniqueIds(s)
    ensures UniqueIds(Filter(p, s))
  {
    if s != [] {
      assert UniqueIds(s[1..]) by {
        forall i, j | 0 <= i < j < |s[1..]| ensures s[1..][i].id != s[1..][j].id {
          assert s[1..][i] == s[i + 1] && s[1..][j] == s[j + 1];
        }
      }
      FilterKeepsUniqueIds(p, s[1..]);
      var rest := Filter(p, s[1..]);
      if p(s[0]) {
        var r := [s[0]] + rest;
        forall i, j | 0 <= i < j < |r| ensures r[i].id != r[j].id {
          if i == 0 {
            assert r[j] == rest[j - 1] && rest[j - 1] in s[1..];
            var k :| 0 <= k < |s[1..]| && s[1..][k] == rest[j - 1];
            assert s[k + 1] == rest[j - 1];
          } else {
            assert r[i] == rest[i - 1] && r[j] == rest[j - 1];
          }
        }
      }
    }
  }

  /**
   * `deleteItem` keeps, in order, exactly the items with another id: the result
   * is a subsequence, and it is as long as the number of such items, so no copy
   * of a repeated record is lost. It is a no-op for an absent id, keeps ids
   * unique and quantities non-negative, and with unique ids removes one item.
   */
  lemma {:induction false} RemovedSpec(s: seq<InventoryItem>, id: string)
    ensures IsSubsequence(Removed(s, id), s)
    ensures |Removed(s, id)| + |Filter((x: InventoryItem) => x.id == id, s)| == |s|
    ensures forall x :: x in Removed(s, id) <==> x in s && x.id != id
    ensures id !in Ids(Removed(s, id))
    ensures id !in Ids(s) ==> Removed(s, id) == s
    ensures UniqueIds(s) ==> UniqueIds(Removed(s, id))
    ensures UniqueIds(s) && id in Ids(s) ==> |Removed(s, id)| == |s| - 1
    ensures NonNegativeStock(s) ==> NonNegativeStock(Removed(s, id))
  {
    var p := (item: InventoryItem) => item.id != id;
    var r := Removed(s, id);
    FilterIsSubsequence(p, s);
    FilterComplementCount(p, (x: InventoryItem) => x.id == id, s);
    if NonNegativeStock(s) {
      forall k | 0 <= k < |r| ensures r[k].quantity >= 0 {
        var j :| 0 <= j < |s| && s[j] == r[k];
      }
    }
    forall x ensures x in r <==> x in s && x.id != id {
      if x in s && x.id != id {
        var k :| 0 <= k < |s| && s[k] == x;
      }
      if x in r {
        var k :| 0 <= k < |r| && r[k] == x;
      }
    }
    forall k | 0 <= k < |r| ensures Ids(r)[k] != id {
      assert p(r[k]);
    }
    if id !in Ids(s) {
      forall i | 0 <= i < |s| ensures p(s[i]) {
        assert Ids(s)[i] == s[i].id;
      }
      FilterKeepsAll(p, s);
    }
    if UniqueIds(s) {
      FilterKeepsUniqueIds(p, s);
      if id in Ids(s) {
        var k :| 0 <= k < |s| && Ids(s)[k] == id;
        RemovedOneCount(s, id, k);
      }
    }
  }

  lemma {:induction false} RemovedOneCount(s: seq<InventoryItem>, id: string, k: nat)
    requires UniqueIds(s) && k < |s| && s[k].id == id
    ensures |Removed(s, id)| == |s| - 1
  {
    var p := (item: InventoryItem) => item.id != id;
    assert s == s[..k] + [s[k]] + s[k + 1..];
    FilterConcat(p, s[..k] + [s[k]], s[k + 1..]);
    FilterConcat(p, s[..k], [s[k]]);
    FilterKeepsAll(p, s[..k]);
    FilterKeepsAll(p, s[k + 1..]);
  }

  // ---------------------------------------------------------------------------
  // The hook's state

  /**
   * The `inventory` state cell and its write-through effect. `Persisted()` says
   * that storage holds the current collection; it holds after every operation
   * whose save succeeds, and a failed save leaves the collection as it is.
   */
  class Inventory {
    var items: seq<InventoryItem>
    const storage: Storage

    ghost predicate Persisted()
      reads this, storage
    {
      storage.snapshot == Stored(items)
    }

    /** Mount: load lazily, then let the effect save the loaded collection once. */
    constructor (storage: Storage, seedTimestamp: string, saveSucceeds: bool)
      modifies storage
      ensures this.storage == storage
      ensures items == Load(old(storage.snapshot), seedTimestamp)
      ensures saveSucceeds ==> Persisted()
      ensures !saveSucceeds ==> storage.snapshot == old(storage.snapshot)
    {
      this.storage := storage;
      items := Load(storage.snapshot, seedTimestamp);
      new;
      Save(saveSucceeds);
    }

    /** The effect on `[inventory]`: write the whole collection; a failure is caught and logged. */
    method Save(saveSucceeds: bool)
      modifies storage
      ensures saveSucceeds ==> Persisted()
      ensures !saveSucceeds ==> storage.snapshot == old(storage.snapshot)
    {
      if saveSucceeds {
        storage.snapshot := Stored(items);
      }
    }

    /** `addItem`: append a new item stamped with the clock. */
    method AddItem(data: InventoryItemData, millis: nat, timestamp: string, saveSucceeds: bool)
      modifies this, storage
      ensures items == old(items) + [NewItem(data, millis, timestamp)]
      ensures UniqueIds(items) <==> old(UniqueIds(items)) && MillisId(millis) !in old(Ids(items))
      ensures saveSucceeds ==> Persisted()
      ensures !saveSucceeds ==> storage.snapshot == old(storage.snapshot)
    {
      AppendKeepsUniqueIds(items, NewItem(data, millis, timestamp));
      items := items + [NewItem(data, millis, timestamp)];
      Save(saveSucceeds);
    }

    /** `updateItem`: merge the supplied fields into every item with this id. */
    method UpdateItem(id: string, patch: ItemPatch, timestamp: string, saveSucceeds: bool)
      modifies this, storage
      ensures items == Updated(old(items), id, patch, timestamp)
      ensures saveSucceeds ==> Persisted()
      ensures !saveSucceeds ==> storage.snapshot == old(storage.snapshot)
    {
      items := Updated(items, id, patch, timestamp);
      Save(saveSucceeds);
    }

    /** `deleteItem`: drop every item with this id. */
    method DeleteItem(id: string, saveSucceeds: bool)
      modifies this, storage
      ensures items == Removed(old(items), id)
      ensures saveSucceeds ==> Persisted()
      ensures !saveSucceeds ==> storage.snapshot == old(storage.snapshot)
    {
      items := Removed(items, id);
      Save(saveSucceeds);
    }

    /** `updateStock`: set the quantity of every item with this id, unclamped. */
    method UpdateStock(id: string, newQuantity: int, timestamp: string, saveSucceeds: bool)
      modifies this, storage
      ensures items == Restocked(old(items), id, newQuantity, timestamp)
      ensures saveSucceeds ==> Persisted()
      ensures !saveSucceeds ==> storage.snapshot == old(storage.snapshot)
    {
      items := Restocked(items, id, newQuantity, timestamp);
      Save(saveSucceeds);
    }
  }

  /**
   * The round trip of the write-through: once an operation has saved (its
   * `saveSucceeds ==> Persisted()`), loading storage in a new session yields
   * exactly the collection in memory, whatever the seed time stamp.
   */
  lemma ReloadAfterSave(inv: Inventory, seedTimestamp: string)
    requires inv.Persisted()
    ensures Load(inv.storage.snapshot, seedTimestamp) == inv.items
  {
  }

  /**
   * After `AddItem` on `before` with a successful save, a reload gives `before`
   * followed by the new item with the caller's data, the clock id and the stamp.
   */
  lemma AddThenReload(inv: Inventory, before: seq<InventoryItem>, data: InventoryItemData,
                      millis: nat, timestamp: string, seedTimestamp: string)
    requires inv.Persisted() && inv.items == before + [NewItem(data, millis, timestamp)]
    ensures var r := Load(inv.storage.snapshot, seedTimestamp);
      |r| == |before| + 1 && r[..|before|] == before &&
      DataOf(r[|before|]) == data && r[|before|].id == MillisId(millis) && r[|before|].lastUpdated == timestamp
  {
    ReloadAfterSave(inv, seedTimestamp);
    assert inv.items[..|before|] == before;
  }
}
