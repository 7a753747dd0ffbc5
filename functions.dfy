/**
 * Shared helpers: selling one unit of an owned item, and wiping every record
 * and setting when the player starts over.
 */
module Helpers {
  import opened Models

  // ------------------------------------------------------------ inventory

  /** The number of units across all owned items. */
  function TotalQuantity(items: seq<OwnedItem>): int {
    if items == [] then 0 else TotalQuantity(items[..|items| - 1]) + items[|items| - 1].quantity
  }

  /** Units add up across a split of the inventory. */
  lemma {:induction false} TotalQuantityAppend(a: seq<OwnedItem>, b: seq<OwnedItem>)
    ensures TotalQuantity(a + b) == TotalQuantity(a) + TotalQuantity(b)
    decreases |b|
  {
    if b == [] {
      assert a + b == a;
    } else {
      var b' := b[..|b| - 1];
      assert (a + b)[..|a + b| - 1] == a + b';
      TotalQuantityAppend(a, b');
    }
  }

  /** The inventory holds no entry with a non-positive quantity. */
  predicate Stocked(items: seq<OwnedItem>) {
    forall k :: 0 <= k < |items| ==> items[k].quantity > 0
  }

  /** Whether the item can be sold now: it is sellable and at least one unit is held. */
  predicate CanSell(item: OwnedItem) {
    item.isSellable && item.quantity > 0
  }

  /** The inventory after one unit of entry `k` is sold: the entry goes when its last unit does. */
  function ItemsAfterSale(items: seq<OwnedItem>, k: nat): seq<OwnedItem>
    requires k < |items|
  {
    var remaining := items[k].quantity - 1;
    if remaining == 0 then items[..k] + items[k + 1..]
    else items[k := items[k].(quantity := remaining)]
  }

  /** A one-entry inventory holds that entry's units. */
  lemma TotalQuantitySingle(item: OwnedItem)
    ensures TotalQuantity([item]) == item.quantity
  {
    assert [item][..0] == [];
  }

  /** Units add up around one entry of the inventory. */
  lemma TotalQuantityAround(before: seq<OwnedItem>, item: OwnedItem, rest: seq<OwnedItem>)
    ensures TotalQuantity(before + [item] + rest) == TotalQuantity(before) + item.quantity + TotalQuantity(rest)
  {
    TotalQuantityAppend(before + [item], rest);
    TotalQuantityAppend(before, [item]);
    TotalQuantitySingle(item);
  }

  /** The inventory around entry `k`, before and after a sale. */
  lemma SaleShape(items: seq<OwnedItem>, k: nat)
    requires k < |items|
    ensures items == items[..k] + [items[k]] + items[k + 1..]
    ensures items[k].quantity - 1 == 0 ==> ItemsAfterSale(items, k) == items[..k] + items[k + 1..]
    ensures items[k].quantity - 1 != 0 ==>
      ItemsAfterSale(items, k) == items[..k] + [items[k].(quantity := items[k].quantity - 1)] + items[k + 1..]
  {}

  /** A sale of a held item removes exactly one unit. */
  lemma SaleTakesOneUnit(items: seq<OwnedItem>, k: nat)
    requires k < |items| && items[k].quantity > 0
    ensures TotalQuantity(ItemsAfterSale(items, k)) == TotalQuantity(items) - 1
  {
    var item, before, rest := items[k], items[..k], items[k + 1..];
    SaleShape(items, k);
    TotalQuantityAround(before, item, rest);
    if item.quantity - 1 == 0 {
      TotalQuantityAppend(before, rest);
    } else {
      TotalQuantityAround(before, item.(quantity := item.quantity - 1), rest);
    }
  }

  /** A sale keeps every other entry as it was and leaves no empty entry behind in an inventory that had none. */
  lemma SaleKeepsOtherItems(items: seq<OwnedItem>, k: nat)
    requires k < |items| && items[k].quantity > 0
    ensures Stocked(items) ==> Stocked(ItemsAfterSale(items, k))
    ensures forall j :: 0 <= j < |items| && j != k ==> items[j] in ItemsAfterSale(items, k)
  {
    var after := ItemsAfterSale(items, k);
    if items[k].quantity - 1 == 0 {
      forall j | 0 <= j < |items| && j != k ensures items[j] in after {
        if j < k { assert after[j] == items[j]; } else { assert after[j - 1] == items[j]; }
      }
    } else {
      forall j | 0 <= j < |items| && j != k ensures items[j] in after {
        assert after[j] == items[j];
      }
    }
  }

  /**
   * Sells one unit of owned item `k`. Nothing happens unless the item is
   * sellable and held; otherwise spending rises by the item's value, the
   * unit leaves the inventory, and a "Sold" entry under everyday spending
   * records the value and the new balance.
   */
  method SellItem(k: nat, player: Player, store: Store)
    requires store.Valid() && k < |store.ownedItems|
    modifies player`spendingAccount, store`ownedItems, store`transactions, store`now
    ensures store.Valid()
    ensures var item := old(store.ownedItems[k]);
      if !CanSell(item) then
        && player.spendingAccount == old(player.spendingAccount)
        && store.ownedItems == old(store.ownedItems)
        && store.transactions == old(store.transactions)
        && store.now == old(store.now)
      else
        && player.spendingAccount == old(player.spendingAccount) + item.value
        && store.ownedItems == ItemsAfterSale(old(store.ownedItems), k)
        && store.transactions == old(store.transactions) + [
             Transaction("Everyday Spending", "Sold " + item.name, item.value, old(store.now), player.spendingAccount)]
        && store.now == old(store.now) + 1
  {
    var item := store.ownedItems[k];
    if !item.isSellable {
      return;
    }
    if !(item.quantity > 0) {
      return;
    }
    var sellPrice := item.value;
    player.spendingAccount := player.spendingAccount + sellPrice;
    var balanceAfterTransaction := player.spendingAccount;
    var remaining := item.quantity - 1;
    if remaining == 0 {
      store.ownedItems := store.ownedItems[..k] + store.ownedItems[k + 1..];
    } else {
      store.ownedItems := store.ownedItems[k := item.(quantity := remaining)];
    }
    store.SaveTransaction("Everyday Spending", "Sold " + item.name, sellPrice, balanceAfterTransaction);
  }

  // ---------------------------------------------------------------- reset

  /**
   * Starts over: deletes every record of every kind, one at a time, clears
   * every session flag and returns the welcome pages to their first page.
   * The store's clock keeps running.
   */
  method ClearAllData(store: Store, flags: Flags)
    requires store.Valid()
    modifies store`players, store`jobs, store`times, store`transactions, store`ownedItems, store`completedLessons
    modifies flags`withdrawnThisMonth, flags`doneThisWeeksQuiz, flags`doneThisWeeksInteractiveEvent
    modifies flags`completedLessonThisWeek, flags`completedTutorial, flags`completedWelcome
    modifies flags`currentPage, flags`isInitialised
    ensures store.Valid()
    ensures store.players == [] && store.jobs == [] && store.times == []
    ensures store.transactions == [] && store.ownedItems == [] && store.completedLessons == []
    ensures !flags.withdrawnThisMonth && !flags.doneThisWeeksQuiz && !flags.doneThisWeeksInteractiveEvent
    ensures !flags.completedLessonThisWeek && !flags.completedTutorial && !flags.completedWelcome
    ensures flags.currentPage == 0 && !flags.isInitialised
  {
    DeleteAllRecords(store);
    ResetFlags(flags);
  }

  /** Clears every session flag and returns the welcome pages to their first page. */
  method ResetFlags(flags: Flags)
    modifies flags`withdrawnThisMonth, flags`doneThisWeeksQuiz, flags`doneThisWeeksInteractiveEvent
    modifies flags`completedLessonThisWeek, flags`completedTutorial, flags`completedWelcome
    modifies flags`currentPage, flags`isInitialised
    ensures !flags.withdrawnThisMonth && !flags.doneThisWeeksQuiz && !flags.doneThisWeeksInteractiveEvent
    ensures !flags.completedLessonThisWeek && !flags.completedTutorial && !flags.completedWelcome
    ensures flags.currentPage == 0 && !flags.isInitialised
  {
    flags.withdrawnThisMonth := false;
    flags.doneThisWeeksQuiz := false;
    flags.doneThisWeeksInteractiveEvent := false;
    flags.completedLessonThisWeek := false;
    flags.completedTutorial := false;
    flags.completedWelcome := false;
    flags.currentPage := 0;
    flags.isInitialised := false;
  }

  /** Deletes every record of every kind, one at a time. */
  method DeleteAllRecords(store: Store)
    requires store.Valid()
    modifies store`players, store`jobs, store`times, store`transactions, store`ownedItems, store`completedLessons
    ensures store.Valid()
    ensures store.players == [] && store.jobs == [] && store.times == []
    ensures store.transactions == [] && store.ownedItems == [] && store.completedLessons == []
  {
    var players := store.players;
    for i := 0 to |players|
      invariant store.players == players[i..]
      modifies store`players
    {
      store.players := store.players[1..];
    }
    var jobs := store.jobs;
    for i := 0 to |jobs|
      invariant store.jobs == jobs[i..]
      modifies store`jobs
    {
      store.jobs := store.jobs[1..];
    }
    var times := store.times;
    for i := 0 to |times|
      invariant store.times == times[i..]
      modifies store`times
    {
      store.times := store.times[1..];
    }
    var transactions := store.transactions;
    for i := 0 to |transactions|
      invariant store.transactions == transactions[i..]
      modifies store`transactions
      invariant store.Valid()
    {
      store.transactions := store.transactions[1..];
    }
    var ownedItems := store.ownedItems;
    for i := 0 to |ownedItems|
      invariant store.ownedItems == ownedItems[i..]
      modifies store`ownedItems
    {
      store.ownedItems := store.ownedItems[1..];
    }
    var completedLessons := store.completedLessons;
    for i := 0 to |completedLessons|
      invariant store.completedLessons == completedLessons[i..]
      modifies store`completedLessons
      invariant store.Valid()
    {
      store.completedLessons := store.completedLessons[1..];
    }
  }
}
