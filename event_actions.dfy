/**
 * Carrying out the action the player picks in an interactive event: buying
 * the offered item, making the offered transfer, or dismissing the event;
 * the transfer-amount field's limits; and the outcome text.
 */
module EventActions {
  import opened Wrappers
  import opened Models
  import opened InteractiveEvents
  import opened TransferMoney
  import opened Helpers

  // ------------------------------------------------------------- purchase

  /** The position of the first owned item with this name, if any. */
  function FirstItemNamed(items: seq<OwnedItem>, name: string): Option<nat> {
    FirstIndexWhere(items, (it: OwnedItem) => it.name == name)
  }

  /**
   * The inventory after buying `item`: one more unit of the first owned item
   * of that name, or a new entry of one unit copying the item's details.
   */
  function ItemsAfterPurchase(items: seq<OwnedItem>, item: Item): seq<OwnedItem> {
    match FirstItemNamed(items, item.name)
    case Some(k) => items[k := items[k].(quantity := items[k].quantity + 1)]
    case None => items + [OwnedItem(item.name, item.price, item.icon, item.isSellable, 1, item.value)]
  }

  /** A purchase adds exactly one unit. */
  lemma PurchaseAddsOneUnit(items: seq<OwnedItem>, item: Item)
    ensures TotalQuantity(ItemsAfterPurchase(items, item)) == TotalQuantity(items) + 1
  {
    var after := ItemsAfterPurchase(items, item);
    match FirstItemNamed(items, item.name)
    case Some(k) =>
      var changed := items[k].(quantity := items[k].quantity + 1);
      var before, rest := items[..k], items[k + 1..];
      assert items == before + ([items[k]] + rest);
      assert after == before + ([changed] + rest);
      TotalQuantityAppend(before, [items[k]] + rest);
      TotalQuantityAppend([items[k]], rest);
      TotalQuantitySingle(items[k]);
      TotalQuantityAppend(before, [changed] + rest);
      TotalQuantityAppend([changed], rest);
      TotalQuantitySingle(changed);
    case None =>
      var added := OwnedItem(item.name, item.price, item.icon, item.isSellable, 1, item.value);
      TotalQuantityAppend(items, [added]);
      TotalQuantitySingle(added);
  }

  /**
   * A purchase of an owned item adds no entry and one of a new item adds one;
   * either way every other entry is kept and an inventory without empty
   * entries stays so.
   */
  lemma PurchaseKeepsOtherItems(items: seq<OwnedItem>, item: Item)
    ensures var after := ItemsAfterPurchase(items, item);
      && |after| == |items| + (if FirstItemNamed(items, item.name).Some? then 0 else 1)
      && (forall j :: 0 <= j < |items| && items[j].name != item.name ==> after[j] == items[j])
      && (Stocked(items) ==> Stocked(after))
  {}

  /**
   * Buying an item the player does not own and then selling it, when it is
   * sellable, gives back the inventory the player started with.
   */
  lemma BuyThenSellRestores(items: seq<OwnedItem>, item: Item)
    requires FirstItemNamed(items, item.name).None?
    ensures var after := ItemsAfterPurchase(items, item);
      && |after| == |items| + 1
      && CanSell(after[|items|]) == item.isSellable
      && ItemsAfterSale(after, |items|) == items
  {
    var after := ItemsAfterPurchase(items, item);
    assert after[..|items|] == items;
  }

  /**
   * Buys `item` for the first player record, if any, with no funds check:
   * spending drops by the price, the inventory gains one unit, and a
   * "Purchased" entry under everyday spending records minus the price and
   * the new balance (0 when there is no player).
   */
  method PurchaseItem(item: Item, player: Player?, store: Store)
    requires store.Valid()
    modifies (if player != null then {player} else {})`spendingAccount
    modifies store`ownedItems, store`transactions, store`now
    ensures store.Valid()
    ensures player != null ==> player.spendingAccount == old(player.spendingAccount) - item.price
    ensures store.ownedItems == ItemsAfterPurchase(old(store.ownedItems), item)
    ensures store.transactions == old(store.transactions) + [
      Transaction("Everyday Spending", "Purchased " + item.name, -item.price, old(store.now),
        if player != null then player.spendingAccount else 0.0)]
    ensures store.now == old(store.now) + 1
  {
    if player != null {
      player.spendingAccount := player.spendingAccount - item.price;
    }
    var balanceAfterTransaction := if player != null then player.spendingAccount else 0.0;
    match FirstItemNamed(store.ownedItems, item.name) {
      case Some(k) =>
        var existingItem := store.ownedItems[k];
        store.ownedItems := store.ownedItems[k := existingItem.(quantity := existingItem.quantity + 1)];
      case None =>
        var newItem := OwnedItem(item.name, item.price, item.icon, item.isSellable, 1, item.value);
        store.ownedItems := store.ownedItems + [newItem];
    }
    store.SaveTransaction("Everyday Spending", "Purchased " + item.name, -item.price, balanceAfterTransaction);
  }

  // -------------------------------------------------------------- actions

  /**
   * Carries out the chosen action and shows its outcome. A purchase needs
   * its item and a transfer its details and a player, since the source
   * force-unwraps them; a transfer moves `transferAmount` between the
   * action's accounts, and dismissing changes nothing.
   */
  method PerformAction(
    action: Action, player: Player?, store: Store, flags: Flags, transferAmount: real,
    errorMessage: Option<string>, successMessage: Option<string>,
    formatted: Option<string>, plainAmount: string)
    returns (errorOut: Option<string>, successOut: Option<string>, showOutcome: bool)
    requires store.Valid()
    requires action.kind == Purchase ==> action.item.Some?
    requires action.kind == Transfer ==> action.transfer.Some? && player != null
    modifies (if player != null then {player} else {})`spendingAccount
    modifies (if player != null then {player} else {})`savings
    modifies (if player != null then {player} else {})`retirementSavings
    modifies store`ownedItems, store`transactions, store`now, flags`withdrawnThisMonth
    ensures store.Valid()
    ensures showOutcome
    ensures action.kind == Purchase ==>
      && errorOut == errorMessage && successOut == successMessage
      && (player != null ==> player.Snapshot() == old(player.Snapshot()).With(Spending, old(player.spendingAccount) - action.item.value.price))
      && store.ownedItems == ItemsAfterPurchase(old(store.ownedItems), action.item.value)
      && |store.transactions| == |old(store.transactions)| + 1
      && flags.withdrawnThisMonth == old(flags.withdrawnThisMonth)
    ensures action.kind == Transfer ==>
      var t := action.transfer.value;
      var outcome := TransferMoney.Transfer(old(player.Snapshot()), t.source, t.destination, transferAmount);
      && store.ownedItems == old(store.ownedItems)
      && (outcome.Rejected? ==>
            && errorOut == Some(ErrorText(outcome.error)) && successOut == successMessage
            && player.Snapshot() == old(player.Snapshot())
            && store.transactions == old(store.transactions)
            && flags.withdrawnThisMonth == old(flags.withdrawnThisMonth))
      && (outcome.Moved? ==>
            && errorOut == None
            && successOut == Some(SuccessText(formatted.GetOr(plainAmount), t.destination))
            && player.Snapshot() == outcome.after
            && |store.transactions| == |old(store.transactions)| + 2
            && flags.withdrawnThisMonth == (old(flags.withdrawnThisMonth) || t.source == Savings))
    ensures action.kind == Dismiss ==>
      && errorOut == errorMessage && successOut == successMessage
      && (player != null ==> player.Snapshot() == old(player.Snapshot()))
      && store.ownedItems == old(store.ownedItems)
      && store.transactions == old(store.transactions)
      && flags.withdrawnThisMonth == old(flags.withdrawnThisMonth)
  {
    errorOut, successOut := errorMessage, successMessage;
    match action.kind {
      case Purchase =>
        PurchaseItem(action.item.value, player, store);
        showOutcome := true;
      case Transfer =>
        var transfer := action.transfer.value;
        var withdrawn;
        errorOut, successOut, withdrawn := TransferFunds(
          transfer.destination, transfer.source, transferAmount, player, store,
          errorMessage, successMessage, flags.withdrawnThisMonth, formatted, plainAmount);
        flags.withdrawnThisMonth := withdrawn;
        showOutcome := true;
      case Dismiss =>
        showOutcome := true;
    }
  }

  // ------------------------------------------------------- transfer amount

  /**
   * The transfer-amount field after an edit: raised to the action's minimum,
   * or lowered to the larger of the minimum and the source balance.
   */
  function ClampTransferAmount(transferAmount: real, minAmount: real, sourceBalance: real): (r: real)
    ensures minAmount <= r <= Max(minAmount, sourceBalance)
    ensures minAmount <= transferAmount <= Max(minAmount, sourceBalance) <==> r == transferAmount
  {
    var upperBound := Max(minAmount, sourceBalance);
    if transferAmount < minAmount then minAmount
    else if transferAmount > upperBound then upperBound
    else transferAmount
  }

  /** Clamping an amount already clamped changes nothing, and the clamp never exceeds a source that covers the minimum. */
  lemma ClampSettles(transferAmount: real, minAmount: real, sourceBalance: real)
    ensures var r := ClampTransferAmount(transferAmount, minAmount, sourceBalance);
      && ClampTransferAmount(r, minAmount, sourceBalance) == r
      && (minAmount <= sourceBalance ==> r <= sourceBalance)
  {}

  /** The amount the transfer field starts from: the first action's minimum, or 0. */
  function InitialTransferAmount(actions: seq<Action>): (r: real)
    ensures actions == [] || actions[0].transfer.None? ==> r == 0.0
    ensures actions != [] && actions[0].transfer.Some? ==> r == actions[0].transfer.value.minAmount
  {
    if actions != [] && actions[0].transfer.Some? then actions[0].transfer.value.minAmount else 0.0
  }

  // --------------------------------------------------------- outcome text

  /** The placeholder an outcome template uses for the amount. */
  const Placeholder := "${amount}"

  /** Whether `pattern` occurs in `s` at position `i`. */
  predicate OccursAt(s: string, pattern: string, i: nat) {
    i + |pattern| <= |s| && s[i..i + |pattern|] == pattern
  }

  /** Whether `pattern` occurs in `s`. */
  predicate Contains(s: string, pattern: string) {
    exists i: nat :: i <= |s| && OccursAt(s, pattern, i)
  }

  /** Every occurrence of `pattern`, scanning left to right without overlap, replaced by `replacement`. */
  function ReplaceAll(s: string, pattern: string, replacement: string): string
    requires pattern != []
    decreases |s|
  {
    if |s| < |pattern| then s
    else if s[..|pattern|] == pattern then replacement + ReplaceAll(s[|pattern|..], pattern, replacement)
    else [s[0]] + ReplaceAll(s[1..], pattern, replacement)
  }

  /**
   * A text without the pattern comes back unchanged; one with it comes back
   * changed in length whenever the replacement's length differs from the
   * pattern's.
   */
  lemma {:induction false} ReplaceAllChanges(s: string, pattern: string, replacement: string)
    requires pattern != []
    ensures !Contains(s, pattern) ==> ReplaceAll(s, pattern, replacement) == s
    ensures Contains(s, pattern) && |replacement| < |pattern| ==> |ReplaceAll(s, pattern, replacement)| < |s|
    ensures Contains(s, pattern) && |replacement| > |pattern| ==> |ReplaceAll(s, pattern, replacement)| > |s|
    ensures !Contains(s, pattern) ==> |ReplaceAll(s, pattern, replacement)| == |s|
    ensures |replacement| <= |pattern| ==> |ReplaceAll(s, pattern, replacement)| <= |s|
    ensures |replacement| >= |pattern| ==> |ReplaceAll(s, pattern, replacement)| >= |s|
    decreases |s|
  {
    if |s| < |pattern| {
    } else if s[..|pattern|] == pattern {
      ReplaceAllChanges(s[|pattern|..], pattern, replacement);
      assert OccursAt(s, pattern, 0);
    } else {
      ReplaceAllChanges(s[1..], pattern, replacement);
      ContainsPastFirst(s, pattern);
    }
  }

  /** A text that does not open with the pattern contains it exactly when the text past its first character does. */
  lemma ContainsPastFirst(s: string, pattern: string)
    requires pattern != [] && |s| >= |pattern| && s[..|pattern|] != pattern
    ensures Contains(s, pattern) <==> Contains(s[1..], pattern)
  {
    var tail := s[1..];
    if Contains(s, pattern) {
      var i: nat :| i <= |s| && OccursAt(s, pattern, i);
      assert i != 0;
      assert tail[i - 1..i - 1 + |pattern|] == s[i..i + |pattern|];
      assert OccursAt(tail, pattern, i - 1);
    }
    if Contains(tail, pattern) {
      var i: nat :| i <= |tail| && OccursAt(tail, pattern, i);
      assert s[i + 1..i + 1 + |pattern|] == tail[i..i + |pattern|];
      assert OccursAt(s, pattern, i + 1);
    }
  }

  /**
   * The outcome text: the template with every "${amount}" replaced by "$"
   * and the amount written with two decimals (`roundedAmount`).
   */
  function GenerateTransferOutcome(actionOutcome: string, roundedAmount: string): string {
    ReplaceAll(actionOutcome, Placeholder, "$" + roundedAmount)
  }

  /** A template without the placeholder is shown as written. */
  lemma OutcomeWithoutPlaceholder(actionOutcome: string, roundedAmount: string)
    requires !Contains(actionOutcome, Placeholder)
    ensures GenerateTransferOutcome(actionOutcome, roundedAmount) == actionOutcome
  {
    ReplaceAllChanges(actionOutcome, Placeholder, "$" + roundedAmount);
  }

  /**
   * While the output's first `k` characters hold no '$', none of them came
   * from a replacement opening with '$', so they are the input's first `k`.
   */
  lemma {:induction false} CopiedPrefix(s: string, pattern: string, replacement: string, k: nat)
    requires pattern != [] && replacement != [] && replacement[0] == '$'
    ensures var out := ReplaceAll(s, pattern, replacement);
      k <= |out| && (forall j :: 0 <= j < k ==> out[j] != '$') ==> k <= |s| && out[..k] == s[..k]
    decreases |s|
  {
    var out := ReplaceAll(s, pattern, replacement);
    if |s| < |pattern| || k == 0 {
    } else if s[..|pattern|] == pattern {
      assert out[0] == '$';
    } else {
      var tail := ReplaceAll(s[1..], pattern, replacement);
      assert out == [s[0]] + tail;
      CopiedPrefix(s[1..], pattern, replacement, k - 1);
      if k <= |out| && (forall j :: 0 <= j < k ==> out[j] != '$') {
        assert forall j :: 0 <= j < k - 1 ==> tail[j] == out[j + 1];
        assert out[..k] == [s[0]] + tail[..k - 1];
        assert s[..k] == [s[0]] + s[1..][..k - 1];
      }
    }
  }

  /** A pattern opening with "${" and holding no other '$'. */
  predicate DollarBrace(pattern: string) {
    2 <= |pattern| && pattern[0] == '$' && pattern[1] == '{'
    && forall j :: 1 <= j < |pattern| ==> pattern[j] != '$'
  }

  /** A replacement '$' + amount, with the amount neither empty nor holding '$' or '{'. */
  predicate CleanReplacement(replacement: string) {
    2 <= |replacement| && replacement[0] == '$' && replacement[1] != '{'
    && forall j :: 1 <= j < |replacement| ==> replacement[j] != '$'
  }

  /** Putting a clean replacement before a text free of the pattern creates no occurrence. */
  lemma ReplacementThenClean(pattern: string, replacement: string, tail: string)
    requires DollarBrace(pattern) && CleanReplacement(replacement)
    requires !Contains(tail, pattern)
    ensures !Contains(replacement + tail, pattern)
  {
    var out := replacement + tail;
    if Contains(out, pattern) {
      var i: nat :| i <= |out| && OccursAt(out, pattern, i);
      assert out[i] == pattern[0] && out[i + 1] == pattern[1];
      if i < |replacement| {
        assert false;
      } else {
        assert tail[i - |replacement|..i - |replacement| + |pattern|] == out[i..i + |pattern|];
        assert OccursAt(tail, pattern, i - |replacement|);
        assert false;
      }
    }
  }

  /**
   * A copied character that does not open the pattern does not open it in the
   * output either: what follows it there starts with the input's next
   * characters unless a '$' comes first.
   */
  lemma CopiedHeadNoOccurrence(s: string, pattern: string, replacement: string)
    requires DollarBrace(pattern) && CleanReplacement(replacement)
    requires |s| >= |pattern| && s[..|pattern|] != pattern
    ensures !OccursAt([s[0]] + ReplaceAll(s[1..], pattern, replacement), pattern, 0)
  {
    var tail := ReplaceAll(s[1..], pattern, replacement);
    var out := [s[0]] + tail;
    CopiedPrefix(s[1..], pattern, replacement, |pattern| - 1);
    assert s[..|pattern|] == [s[0]] + s[1..][..|pattern| - 1];
    if OccursAt(out, pattern, 0) {
      assert forall j :: 0 <= j < |pattern| - 1 ==> tail[j] == pattern[j + 1];
      assert false;
    }
  }

  /**
   * Copying a character that does not open the pattern before the rest's
   * output, itself free of the pattern, creates no occurrence.
   */
  lemma CopiedThenClean(s: string, pattern: string, replacement: string)
    requires DollarBrace(pattern) && CleanReplacement(replacement)
    requires |s| >= |pattern| && s[..|pattern|] != pattern
    requires !Contains(ReplaceAll(s[1..], pattern, replacement), pattern)
    ensures !Contains([s[0]] + ReplaceAll(s[1..], pattern, replacement), pattern)
  {
    var tail := ReplaceAll(s[1..], pattern, replacement);
    var out := [s[0]] + tail;
    CopiedHeadNoOccurrence(s, pattern, replacement);
    if Contains(out, pattern) {
      var i: nat :| i <= |out| && OccursAt(out, pattern, i);
      assert tail[i - 1..i - 1 + |pattern|] == out[i..i + |pattern|];
      assert OccursAt(tail, pattern, i - 1);
      assert false;
    }
  }

  /** Replacing a "${"-pattern by a clean replacement leaves no occurrence of it. */
  lemma {:induction false} NoPatternLeft(s: string, pattern: string, replacement: string)
    requires DollarBrace(pattern) && CleanReplacement(replacement)
    ensures !Contains(ReplaceAll(s, pattern, replacement), pattern)
    decreases |s|
  {
    if |s| < |pattern| {
    } else if s[..|pattern|] == pattern {
      NoPatternLeft(s[|pattern|..], pattern, replacement);
      ReplacementThenClean(pattern, replacement, ReplaceAll(s[|pattern|..], pattern, replacement));
    } else {
      NoPatternLeft(s[1..], pattern, replacement);
      CopiedThenClean(s, pattern, replacement);
    }
  }

  /**
   * After the substitution no "${amount}" is left, provided the amount text
   * is not empty and holds neither '$' nor '{' (a formatted number never
   * does).
   */
  lemma NoPlaceholderLeft(actionOutcome: string, roundedAmount: string)
    requires roundedAmount != [] && '$' !in roundedAmount && '{' !in roundedAmount
    ensures !Contains(GenerateTransferOutcome(actionOutcome, roundedAmount), Placeholder)
  {
    var r := "$" + roundedAmount;
    assert forall j :: 1 <= j < |r| ==> r[j] == roundedAmount[j - 1];
    NoPatternLeft(actionOutcome, Placeholder, r);
  }

  /** A template that opens with the placeholder opens with the amount. */
  lemma OutcomeLeadsWithAmount(rest: string, roundedAmount: string)
    ensures GenerateTransferOutcome(Placeholder + rest, roundedAmount) ==
      "$" + roundedAmount + GenerateTransferOutcome(rest, roundedAmount)
  {
    var s := Placeholder + rest;
    assert s[..|Placeholder|] == Placeholder;
    assert s[|Placeholder|..] == rest;
  }
}
