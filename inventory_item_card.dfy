/**
 * Stock-status classification and the quantity stepper of an item card
 * (components/InventoryItemCard.tsx). The card's colour classes are not
 * modelled; its status and its label are.
 */
module InventoryItemCard {

  import opened Types
  import UseInventory

  datatype StatusInfo = StatusInfo(status: StockStatus, labelText: string)

  /** `getStatusInfo`: zero is out of stock, anything else at or below the threshold is low, the rest is in stock. */
  function GetStatusInfo(quantity: int, threshold: int): (r: StatusInfo)
    ensures r.status == OutOfStock <==> quantity == 0
    ensures r.status == LowStock <==> quantity != 0 && quantity <= threshold
    ensures r.status == InStock <==> quantity != 0 && quantity > threshold
  {
    if quantity == 0 then StatusInfo(OutOfStock, "품절")
    else if quantity <= threshold then StatusInfo(LowStock, "재고 부족")
    else StatusInfo(InStock, "재고 양호")
  }

  /** The status the card shows for an item. */
  function Classify(item: InventoryItem): (r: StockStatus)
    ensures r == OutOfStock <==> item.quantity == 0
    ensures r == LowStock <==> item.quantity != 0 && item.quantity <= item.lowStockThreshold
    ensures r == InStock <==> item.quantity != 0 && item.quantity > item.lowStockThreshold
  {
    GetStatusInfo(item.quantity, item.lowStockThreshold).status
  }

  /** The boundary cases: a quantity equal to the threshold is low, one above it is in stock, zero is out. */
  lemma StatusBoundaries()
    ensures GetStatusInfo(5, 5).status == LowStock
    ensures GetStatusInfo(6, 5).status == InStock
    ensures GetStatusInfo(0, 5).status == OutOfStock
  {
  }

  /** With threshold 0 every positive quantity is in stock; a negative one is classified low. */
  lemma ZeroThreshold(quantity: int)
    ensures quantity > 0 ==> GetStatusInfo(quantity, 0).status == InStock
    ensures quantity < 0 ==> GetStatusInfo(quantity, 0).status == LowStock
  {
  }

  /** Labels and statuses determine each other: 품절 is out of stock, 재고 부족 low, 재고 양호 in stock. */
  lemma LabelsMatchStatuses(q1: int, t1: int, q2: int, t2: int)
    ensures GetStatusInfo(q1, t1).status == OutOfStock <==> GetStatusInfo(q1, t1).labelText == "품절"
    ensures GetStatusInfo(q1, t1).status == LowStock <==> GetStatusInfo(q1, t1).labelText == "재고 부족"
    ensures GetStatusInfo(q1, t1).status == InStock <==> GetStatusInfo(q1, t1).labelText == "재고 양호"
    ensures GetStatusInfo(q1, t1).labelText == GetStatusInfo(q2, t2).labelText <==>
            GetStatusInfo(q1, t1).status == GetStatusInfo(q2, t2).status
  {
  }

  /** `Math.max(0, quantity + delta)`: the stepper never proposes a negative quantity. */
  function StepperQuantity(quantity: int, delta: int): (r: int)
    ensures r >= 0 && r >= quantity + delta
    ensures r == quantity + delta || r == 0
  {
    if quantity + delta > 0 then quantity + delta else 0
  }

  /** The "-" button at zero stays at zero; "+" from a non-negative quantity adds one; "-" above zero subtracts one. */
  lemma StepperButtons(quantity: int)
    ensures StepperQuantity(0, -1) == 0
    ensures quantity >= 0 ==> StepperQuantity(quantity, 1) == quantity + 1
    ensures quantity > 0 ==> StepperQuantity(quantity, -1) == quantity - 1
  {
  }

  /**
   * Steppers never make a stock negative: a collection without negative
   * quantities keeps none after the card's clamped `updateStock`.
   */
  lemma StepperKeepsStockNonNegative(s: seq<InventoryItem>, id: string, quantity: int, delta: int, timestamp: string)
    requires UseInventory.NonNegativeStock(s)
    ensures UseInventory.NonNegativeStock(UseInventory.Restocked(s, id, StepperQuantity(quantity, delta), timestamp))
  {
  }

  /**
   * `handleQuantityChange`: the card clamps and hands the result to
   * `updateStock`, which stores it as given. The clamp is here, not in the hook.
   */
  method HandleQuantityChange(inventory: UseInventory.Inventory, item: InventoryItem, delta: int,
                              timestamp: string, saveSucceeds: bool)
    modifies inventory, inventory.storage
    ensures inventory.items ==
      UseInventory.Restocked(old(inventory.items), item.id, StepperQuantity(item.quantity, delta), timestamp)
    ensures forall i :: 0 <= i < |inventory.items| && old(inventory.items)[i].id == item.id ==>
      inventory.items[i].quantity >= 0
    ensures saveSucceeds ==> inventory.Persisted()
    ensures !saveSucceeds ==> inventory.storage.snapshot == old(inventory.storage.snapshot)
  {
    var newQuantity := StepperQuantity(item.quantity, delta);
    inventory.UpdateStock(item.id, newQuantity, timestamp, saveSucceeds);
  }
}
