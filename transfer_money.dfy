/**
 * Moving money between two of the player's accounts: the validation order,
 * the messages, the debit and credit ledger entries, and the monthly flag set
 * by a withdrawal from savings.
 */
module TransferMoney {
  import opened Wrappers
  import opened Models

  /** Why a transfer was refused, in the order the guards are tried. */
  datatype TransferError = InvalidAmount | SameAccount | InsufficientFunds(account: Account)

  /** The message shown for a refused transfer. */
  function ErrorText(e: TransferError): string {
    match e
    case InvalidAmount => "Please enter a valid amount."
    case SameAccount => "Source and destination accounts must be different."
    case InsufficientFunds(Spending) => "Insufficient funds in Spending Account."
    case InsufficientFunds(Savings) => "Insufficient funds in Savings."
    case InsufficientFunds(Retirement) => "Insufficient funds in Retirement Savings."
  }

  /** The result of a transfer on the balances. */
  datatype Outcome = Rejected(error: TransferError) | Moved(after: Balances)

  /** The transfer of `amount` from `source` to `destination` on balances `b`. */
  function Transfer(b: Balances, source: Account, destination: Account, amount: real): Outcome {
    if !(amount > 0.0) then Rejected(InvalidAmount)
    else if source == destination then Rejected(SameAccount)
    else if !(b.Of(source) >= amount) then Rejected(InsufficientFunds(source))
    else
      var debited := b.With(source, b.Of(source) - amount);
      Moved(debited.With(destination, debited.Of(destination) + amount))
  }

  /**
   * A transfer is refused exactly when the amount is not positive, the two
   * accounts coincide, or the source holds less than the amount; the first
   * failing check names the error.
   */
  lemma TransferRefusals(b: Balances, source: Account, destination: Account, amount: real)
    ensures Transfer(b, source, destination, amount).Rejected? <==>
      amount <= 0.0 || source == destination || b.Of(source) < amount
    ensures amount <= 0.0 ==> Transfer(b, source, destination, amount) == Rejected(InvalidAmount)
    ensures amount > 0.0 && source == destination ==> Transfer(b, source, destination, amount) == Rejected(SameAccount)
    ensures amount > 0.0 && source != destination && b.Of(source) < amount ==>
      Transfer(b, source, destination, amount) == Rejected(InsufficientFunds(source))
  {}

  /**
   * A successful transfer takes `amount` from the source, adds it to the
   * destination, leaves the third account alone, keeps the total, and never
   * overdraws the source.
   */
  lemma TransferMovesAmount(b: Balances, source: Account, destination: Account, amount: real)
    requires Transfer(b, source, destination, amount).Moved?
    ensures var after := Transfer(b, source, destination, amount).after;
      && after.Of(source) == b.Of(source) - amount
      && after.Of(destination) == b.Of(destination) + amount
      && (forall c :: c != source && c != destination ==> after.Of(c) == b.Of(c))
      && after.Total() == b.Total()
      && after.Of(source) >= 0.0
  {}

  /** Sending the same amount back restores the balances, when the destination was not in debt. */
  lemma TransferBackRestores(b: Balances, source: Account, destination: Account, amount: real)
    requires Transfer(b, source, destination, amount).Moved?
    requires b.Of(destination) >= 0.0
    ensures var after := Transfer(b, source, destination, amount).after;
      Transfer(after, destination, source, amount) == Moved(b)
  {
    var after := Transfer(b, source, destination, amount).after;
    TransferMovesAmount(b, source, destination, amount);
    var back := Transfer(after, destination, source, amount);
    assert back.Moved?;
    TransferMovesAmount(after, destination, source, amount);
    assert forall c :: back.after.Of(c) == b.Of(c);
    assert back.after == Balances(back.after.Of(Spending), back.after.Of(Savings), back.after.Of(Retirement));
  }

  /** The confirmation shown after a transfer, quoting the formatted amount. */
  function SuccessText(amountText: string, destination: Account): string {
    "Successfully transferred " + amountText + " to " + RawValue(destination) + "."
  }

  /**
   * Performs a transfer on the player's accounts. Swift's `inout` message and
   * flag parameters are passed in and returned. `formatted` is the currency
   * formatter's text for the amount (absent when it fails) and `plainAmount`
   * the amount's default text used instead.
   */
  method TransferFunds(
    destination: Account, source: Account, amount: real, player: Player, store: Store,
    errorMessage: Option<string>, successMessage: Option<string>, withdrawnThisMonth: bool,
    formatted: Option<string>, plainAmount: string)
    returns (errorOut: Option<string>, successOut: Option<string>, withdrawnOut: bool)
    requires store.Valid()
    modifies player`spendingAccount, player`savings, player`retirementSavings
    modifies store`transactions, store`now
    ensures store.Valid()
    ensures match Transfer(old(player.Snapshot()), source, destination, amount)
      case Rejected(error) =>
        && errorOut == Some(ErrorText(error))
        && successOut == successMessage
        && withdrawnOut == withdrawnThisMonth
        && player.Snapshot() == old(player.Snapshot())
        && store.transactions == old(store.transactions)
        && store.now == old(store.now)
      case Moved(after) =>
        && errorOut == None
        && successOut == Some(SuccessText(formatted.GetOr(plainAmount), destination))
        && withdrawnOut == (withdrawnThisMonth || source == Savings)
        && player.Snapshot() == after
        && store.transactions == old(store.transactions) + [
             Transaction(Label(source), "Transfer to " + RawValue(destination), -amount, old(store.now), after.Of(source)),
             Transaction(Label(destination), "Transfer from " + RawValue(source), amount, old(store.now) + 1, after.Of(destination))]
        && store.now == old(store.now) + 2
  {
    errorOut, successOut, withdrawnOut := errorMessage, successMessage, withdrawnThisMonth;
    ghost var before := player.Snapshot();
    ghost var outcome := Transfer(before, source, destination, amount);
    if !(amount > 0.0) {
      errorOut := Some(ErrorText(InvalidAmount));
      return;
    }
    if source == destination {
      errorOut := Some(ErrorText(SameAccount));
      return;
    }
    var refused := DebitSource(source, destination, amount, player, store);
    if refused {
      assert outcome == Rejected(InsufficientFunds(source));
      errorOut := Some(ErrorText(InsufficientFunds(source)));
      return;
    }
    ghost var debited := player.Snapshot();
    assert debited == before.With(source, before.Of(source) - amount);
    if source == Savings {
      withdrawnOut := true;
    }
    CreditDestination(destination, source, amount, player, store);
    assert outcome == Moved(player.Snapshot());
    successOut := Some(SuccessText(formatted.GetOr(plainAmount), destination));
    errorOut := None;
  }

  /**
   * The first switch of the transfer: checks the source balance and, when it
   * covers the amount, debits it and files a "Transfer to" entry under the
   * source's label carrying the debited balance.
   */
  method DebitSource(source: Account, destination: Account, amount: real, player: Player, store: Store)
    returns (refused: bool)
    requires store.Valid()
    modifies player`spendingAccount, player`savings, player`retirementSavings
    modifies store`transactions, store`now
    ensures store.Valid()
    ensures refused <==> !(old(player.Snapshot()).Of(source) >= amount)
    ensures refused ==>
      && player.Snapshot() == old(player.Snapshot())
      && store.transactions == old(store.transactions)
      && store.now == old(store.now)
    ensures !refused ==>
      && player.Snapshot() == old(player.Snapshot()).With(source, old(player.Snapshot()).Of(source) - amount)
      && store.transactions == old(store.transactions) + [
           Transaction(Label(source), "Transfer to " + RawValue(destination), -amount, old(store.now), player.Snapshot().Of(source))]
      && store.now == old(store.now) + 1
  {
    refused := false;
    match source {
      case Spending =>
        if !(player.spendingAccount >= amount) {
          return true;
        }
        player.spendingAccount := player.spendingAccount - amount;
        var balanceAfterTransaction := player.spendingAccount;
        store.SaveTransaction("Everyday Spending", "Transfer to " + RawValue(destination), -amount, balanceAfterTransaction);
      case Savings =>
        if !(player.savings >= amount) {
          return true;
        }
        player.savings := player.savings - amount;
        var balanceAfterTransaction := player.savings;
        store.SaveTransaction("Savings", "Transfer to " + RawValue(destination), -amount, balanceAfterTransaction);
      case Retirement =>
        if !(player.retirementSavings >= amount) {
          return true;
        }
        player.retirementSavings := player.retirementSavings - amount;
        var balanceAfterTransaction := player.retirementSavings;
        store.SaveTransaction("Retirement Savings", "Transfer to " + RawValue(destination), -amount, balanceAfterTransaction);
    }
  }

  /**
   * The second switch of the transfer: credits the destination and files a
   * "Transfer from" entry under its label carrying the credited balance.
   */
  method CreditDestination(destination: Account, source: Account, amount: real, player: Player, store: Store)
    requires store.Valid()
    modifies player`spendingAccount, player`savings, player`retirementSavings
    modifies store`transactions, store`now
    ensures store.Valid()
    ensures player.Snapshot() == old(player.Snapshot()).With(destination, old(player.Snapshot()).Of(destination) + amount)
    ensures store.transactions == old(store.transactions) + [
      Transaction(Label(destination), "Transfer from " + RawValue(source), amount, old(store.now), player.Snapshot().Of(destination))]
    ensures store.now == old(store.now) + 1
  {
    match destination {
      case Spending =>
        player.spendingAccount := player.spendingAccount + amount;
        var balanceAfterTransaction := player.spendingAccount;
        store.SaveTransaction("Everyday Spending", "Transfer from " + RawValue(source), amount, balanceAfterTransaction);
      case Savings =>
        player.savings := player.savings + amount;
        var balanceAfterTransaction := player.savings;
        store.SaveTransaction("Savings", "Transfer from " + RawValue(source), amount, balanceAfterTransaction);
      case Retirement =>
        player.retirementSavings := player.retirementSavings + amount;
        var balanceAfterTransaction := player.retirementSavings;
        store.SaveTransaction("Retirement Savings", "Transfer from " + RawValue(source), amount, balanceAfterTransaction);
    }
  }
}
