/**
 * The weekly event as the time-advance screen applies it: an event is drawn,
 * shown, and settled against the everyday spending account with one ledger
 * entry.
 */
module ProgressTime {
  import opened Wrappers
  import opened Models
  import opened WeeklyEvents

  /** The chance that a week brings an event. */
  const Chance := 1.0

  /** The change an event makes to spending: minus its amount when owed, plus it otherwise. */
  function EventEffect(e: WeeklyEvent): (delta: real)
    ensures e.amount >= 0.0 ==> (delta <= 0.0 <==> e.isMoneyOwed || e.amount == 0.0)
    ensures delta == -e.amount || delta == e.amount
  {
    if e.isMoneyOwed then -e.amount else e.amount
  }

  /**
   * Draws and applies this week's event. `chanceDraw` and `randomValue` are
   * the two draws on [0, 1] and `pick` the element draw. `player` is the first
   * player record, if any; with none, only the ledger entry is written, its
   * balance snapshot falling back to minus the amount.
   */
  method TriggerWeeklyEvent(player: Player?, store: Store, chanceDraw: real, randomValue: real, pick: nat)
    returns (currentEvent: Option<WeeklyEvent>)
    requires store.Valid()
    requires 0.0 <= chanceDraw <= 1.0 && 0.0 <= randomValue <= 1.0
    modifies (if player != null then {player} else {})`spendingAccount, store`transactions, store`now
    ensures store.Valid()
    ensures !(chanceDraw < Chance) ==>
      && currentEvent == None
      && (player != null ==> player.spendingAccount == old(player.spendingAccount))
      && store.transactions == old(store.transactions) && store.now == old(store.now)
    ensures chanceDraw < Chance ==>
      && currentEvent == GetRandomWeeklyEvent(randomValue, pick)
      && var e := currentEvent.value;
      && (player != null ==> player.spendingAccount == old(player.spendingAccount) + EventEffect(e))
      && store.transactions == old(store.transactions) + [
           Transaction("Everyday Spending", e.title, EventEffect(e), old(store.now),
             if player != null then player.spendingAccount else 0.0 - e.amount)]
      && store.now == old(store.now) + 1
  {
    var randomChance := chanceDraw < Chance;
    currentEvent := None;
    if randomChance {
      var randomEvent := GetRandomWeeklyEvent(randomValue, pick);
      if randomEvent.Some? {
        currentEvent := randomEvent;
        var event := currentEvent.value;
        if event.isMoneyOwed {
          if player != null {
            player.spendingAccount := player.spendingAccount - event.amount;
          }
        } else {
          if player != null {
            player.spendingAccount := player.spendingAccount + event.amount;
          }
        }
        var balanceAfterTransaction := if player != null then player.spendingAccount else 0.0 - event.amount;
        store.SaveTransaction("Everyday Spending", event.title,
          if event.isMoneyOwed then -event.amount else event.amount, balanceAfterTransaction);
      }
    }
  }

  /**
   * Only a draw of exactly 1 skips the week's event; every other draw brings
   * one, and it moves spending by between 1500 up and 800 down.
   */
  lemma EventAlmostAlways(chanceDraw: real, randomValue: real, pick: nat)
    requires 0.0 <= chanceDraw <= 1.0 && 0.0 <= randomValue <= 1.0
    ensures chanceDraw < Chance <==> chanceDraw != 1.0
    ensures GetRandomWeeklyEvent(randomValue, pick).Some?
    ensures -800.0 <= EventEffect(GetRandomWeeklyEvent(randomValue, pick).value) <= 1500.0
  {
    WeeklyEventBands(randomValue, pick);
  }
}
