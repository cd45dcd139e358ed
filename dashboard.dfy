/**
 * The summary counts of the dashboard (components/Dashboard.tsx). They are
 * computed with their own inline conditions, not with the card's
 * classification; the lemmas below say where the two agree and where not.
 */
module Dashboard {

  import opened Seqs
  import opened Types
  import InventoryItemCard
  import UseInventory

  datatype Stats = Stats(totalItems: nat, lowStockItems: nat, outOfStockItems: nat)

  /** The dashboard's low-stock condition: `quantity > 0 && quantity <= lowStockThreshold`. */
  predicate CountsAsLow(item: InventoryItem)
    ensures CountsAsLow(item) ==> InventoryItemCard.Classify(item) == LowStock
    ensures item.quantity >= 0 ==> (CountsAsLow(item) <==> InventoryItemCard.Classify(item) == LowStock)
  {
    item.quantity > 0 && item.quantity <= item.lowStockThreshold
  }

  /** The dashboard's out-of-stock condition: `quantity === 0`. */
  predicate CountsAsOut(item: InventoryItem)
    ensures CountsAsOut(item) <==> InventoryItemCard.Classify(item) == OutOfStock
  {
    item.quantity == 0
  }

  /** `stats`: the length and two filtered counts; no item counts as both low and out of stock. */
  function ComputeStats(inventory: seq<InventoryItem>): (r: Stats)
    ensures r.totalItems == |inventory|
    ensures r.lowStockItems + r.outOfStockItems <= r.totalItems
  {
    FilterDisjointCount(CountsAsLow, CountsAsOut, inventory);
    Stats(|inventory|, |Filter(CountsAsLow, inventory)|, |Filter(CountsAsOut, inventory)|)
  }

  /** How many items the card classification puts in status `s`. */
  function CountWithStatus(inventory: seq<InventoryItem>, s: StockStatus): nat
  {
    |Filter((item: InventoryItem) => InventoryItemCard.Classify(item) == s, inventory)|
  }

  /**
   * With non-negative quantities the dashboard counts exactly the items the
   * card shows as low stock and as out of stock, and the rest are in stock.
   */
  lemma {:induction false} StatsMatchClassification(inventory: seq<InventoryItem>)
    requires UseInventory.NonNegativeStock(inventory)
    ensures ComputeStats(inventory).lowStockItems == CountWithStatus(inventory, LowStock)
    ensures ComputeStats(inventory).outOfStockItems == CountWithStatus(inventory, OutOfStock)
    ensures ComputeStats(inventory).totalItems - ComputeStats(inventory).lowStockItems
              - ComputeStats(inventory).outOfStockItems == CountWithStatus(inventory, InStock)
  {
    var isLow := (item: InventoryItem) => InventoryItemCard.Classify(item) == LowStock;
    var isOut := (item: InventoryItem) => InventoryItemCard.Classify(item) == OutOfStock;
    var isIn := (item: InventoryItem) => InventoryItemCard.Classify(item) == InStock;
    FilterExtensional(CountsAsLow, isLow, inventory);
    FilterExtensional(CountsAsOut, isOut, inventory);
    FilterPartitionCount(isLow, isOut, isIn, inventory);
  }

  /** With a negative quantity the two disagree: the card says low stock, the dashboard counts nothing. */
  lemma NegativeQuantityDiverges()
    ensures var item := InventoryItem("x", "x", -1, "kg", 5, "t");
      InventoryItemCard.Classify(item) == LowStock &&
      ComputeStats([item]).lowStockItems == 0 && ComputeStats([item]).outOfStockItems == 0
  {
    var item := InventoryItem("x", "x", -1, "kg", 5, "t");
    assert Filter(CountsAsLow, [item]) == [];
    assert Filter(CountsAsOut, [item]) == [];
  }

  /** The seed list has four items, two low (kimchi 2/5 and the containers 50/100), one out of stock. */
  lemma SeedStats(timestamp: string)
    ensures ComputeStats(UseInventory.InitialInventory(timestamp)) == Stats(4, 2, 1)
  {
    CountOfFour(CountsAsLow, UseInventory.InitialInventory(timestamp));
    CountOfFour(CountsAsOut, UseInventory.InitialInventory(timestamp));
  }

  /** Quantities 10, 0, 3, 50 with thresholds 5, 10, 5, 100: two low (3/5 and 50/100), one out of stock. */
  lemma MixedStats()
    ensures ComputeStats([ InventoryItem("a", "a", 10, "kg", 5, "t"), InventoryItem("b", "b", 0, "kg", 10, "t"),
                           InventoryItem("c", "c", 3, "kg", 5, "t"), InventoryItem("d", "d", 50, "kg", 100, "t") ])
            == Stats(4, 2, 1)
  {
    var s := [ InventoryItem("a", "a", 10, "kg", 5, "t"), InventoryItem("b", "b", 0, "kg", 10, "t"),
               InventoryItem("c", "c", 3, "kg", 5, "t"), InventoryItem("d", "d", 50, "kg", 100, "t") ];
    CountOfFour(CountsAsLow, s);
    CountOfFour(CountsAsOut, s);
  }

  /** How many of four items a condition selects. */
  lemma {:induction false} CountOfFour(p: InventoryItem -> bool, s: seq<InventoryItem>)
    requires |s| == 4
    ensures |Filter(p, s)| ==
      (if p(s[0]) then 1 else 0) + (if p(s[1]) then 1 else 0) + (if p(s[2]) then 1 else 0) + (if p(s[3]) then 1 else 0)
  {
    assert s[3..][1..] == [] && s[2..][1..] == s[3..] && s[1..][1..] == s[2..];
    assert |Filter(p, s[3..])| == (if p(s[3]) then 1 else 0);
    assert |Filter(p, s[2..])| == (if p(s[2]) then 1 else 0) + |Filter(p, s[3..])|;
    assert |Filter(p, s[1..])| == (if p(s[1]) then 1 else 0) + |Filter(p, s[2..])|;
  }
}
