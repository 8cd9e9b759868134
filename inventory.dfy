/** The Inventory page (pages/Inventory.tsx): the clamped stock buttons, the
    low-stock flag, and the "Add Item" form, which dispatches an update for
    an id nobody has and therefore adds nothing. */
module InventoryPage {
  import opened Common
  import opened Text
  import opened Types
  import opened AppStore

  /** `Math.max(0, quantity + change)`. */
  function StockAfter(quantity: int, change: int): (q: int)
    ensures q >= 0
    ensures q >= quantity + change
    ensures q == quantity + change || q == 0
  {
    if quantity + change > 0 then quantity + change else 0
  }

  /** The item `handleUpdateStock` dispatches. */
  function Restocked(item: InventoryItem, change: int, today: string): (r: InventoryItem)
    ensures r.quantity >= 0
    ensures item.quantity + change >= 0 ==> r.quantity == item.quantity + change
    ensures item.quantity + change < 0 ==> r.quantity == 0
    ensures r.lastUpdated == today
    ensures r.(quantity := item.quantity, lastUpdated := item.lastUpdated) == item
  {
    item.(quantity := StockAfter(item.quantity, change), lastUpdated := today)
  }

  /** `isLow`. */
  predicate IsLow(item: InventoryItem)
  {
    item.quantity <= item.minThreshold
  }

  /** The alert boundary is inclusive: stock at the threshold is low, one
      above is not, and (for a non-negative threshold) one "Use" from there
      makes it low. "Use" on an empty item leaves it empty. */
  lemma {:induction false} LowBoundary(item: InventoryItem, today: string)
    ensures item.quantity == item.minThreshold ==> IsLow(item)
    ensures item.quantity == item.minThreshold + 1 && item.minThreshold >= 0 ==>
      !IsLow(item) && IsLow(Restocked(item, -1, today))
    ensures item.quantity == 0 ==> Restocked(item, -1, today).quantity == 0
  {
  }

  /** The item `handleAddItem` builds. */
  function NewItem(name: string, category: ItemCategory, quantity: int, minThreshold: int,
                   now: nat, today: string): (item: InventoryItem)
    ensures item.id == "inv" + NatToString(now)
    ensures item.name == name && item.category == category
    ensures item.quantity == quantity && item.minThreshold == minThreshold
    ensures item.lastUpdated == today
  {
    InventoryItem("inv" + NatToString(now), name, category, quantity, minThreshold, today)
  }

  /** Adding an item dispatches UPDATE_INVENTORY, which only replaces: with a
      fresh id the state is unchanged. */
  lemma {:induction false} AddItemIsNoOp(s: AppState, name: string, category: ItemCategory, quantity: int,
                      minThreshold: int, now: nat, today: string)
    requires forall i :: 0 <= i < |s.inventory| ==> s.inventory[i].id != "inv" + NatToString(now)
    ensures Reduce(s, UpdateInventory(NewItem(name, category, quantity, minThreshold, now, today))) == s
  {
    ReplaceItemById(s, NewItem(name, category, quantity, minThreshold, now, today));
  }

  /** On the seed state no "Add Item" ever shows up in the list. */
  lemma {:induction false} SeedAddItemIsNoOp(d1: string, d2: string, name: string, category: ItemCategory,
                          quantity: int, minThreshold: int, now: nat, today: string)
    ensures var s := InitialState(d1, d2);
      Reduce(s, UpdateInventory(NewItem(name, category, quantity, minThreshold, now, today))) == s
  {
    var s := InitialState(d1, d2);
    var id := "inv" + NatToString(now);
    assert |id| > 3;
    forall i | 0 <= i < |s.inventory| ensures s.inventory[i].id != id {
      assert |s.inventory[i].id| == 2;
    }
    AddItemIsNoOp(s, name, category, quantity, minThreshold, now, today);
  }

  /** The page's add-item form. */
  class InventoryPage {
    var showAddModal: bool
    var name: string
    var category: ItemCategory
    var quantity: int
    var minThreshold: int

    constructor ()
      ensures !showAddModal
      ensures name == "" && category == Consumable && quantity == 0 && minThreshold == 5
    {
      showAddModal := false;
      name, category, quantity, minThreshold := "", Consumable, 0, 5;
    }

    /** The "- Use" and "+ Add" buttons. */
    method UpdateStock(store: Store, item: InventoryItem, change: int, today: string)
      modifies store
      ensures store.state == Reduce(old(store.state), UpdateInventory(Restocked(item, change, today)))
    {
      store.Dispatch(UpdateInventory(Restocked(item, change, today)));
    }

    /** Submitting the form: dispatch, close the modal, reset the form. */
    method AddItem(store: Store, now: nat, today: string)
      modifies this, store
      ensures store.state ==
        Reduce(old(store.state), UpdateInventory(NewItem(old(name), old(category), old(quantity), old(minThreshold), now, today)))
      ensures !showAddModal
      ensures name == "" && category == Consumable && quantity == 0 && minThreshold == 5
    {
      store.Dispatch(UpdateInventory(NewItem(name, category, quantity, minThreshold, now, today)));
      showAddModal := false;
      name, category, quantity, minThreshold := "", Consumable, 0, 5;
    }
  }
}
