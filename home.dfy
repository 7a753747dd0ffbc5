/**
 * The home screen's weekly cycle: the gate that decides whether the player may
 * move on to the next week, and the week's progression itself (calendar
 * roll-over, month-start interest and expense drift, income and expenses, and
 * the reset of the weekly flags).
 */
module Home {
  import opened Wrappers
  import opened Models

  // ------------------------------------------------------------------ gate

  /** Completed lessons after which a weekly lesson is no longer demanded. */
  const LessonsBeforeWaiver := 12

  /**
   * Whether the week may end: the quiz and the interactive event are always
   * required, and a lesson too while fewer than twelve lessons are complete.
   */
  function AllowedToProgressTime(completedCount: int, doneQuiz: bool, doneEvent: bool, doneLesson: bool): (ok: bool)
    ensures ok ==> doneQuiz && doneEvent
    ensures ok && completedCount < LessonsBeforeWaiver ==> doneLesson
    ensures doneQuiz && doneEvent && doneLesson ==> ok
    ensures completedCount >= LessonsBeforeWaiver && doneQuiz && doneEvent ==> ok
  {
    if completedCount >= LessonsBeforeWaiver then
      doneQuiz && doneEvent
    else
      doneQuiz && doneEvent && doneLesson
  }

  // -------------------------------------------------------------- calendar

  /** A week of the game's calendar: four weeks a month, twelve months a year. */
  datatype Calendar = Calendar(week: int, month: int, year: int) {

    predicate Valid() {
      1 <= week <= 4 && 1 <= month <= 12 && 1 <= year
    }

    /** The number of weeks since week 1 of month 1 of year 1. */
    function Ordinal(): int {
      ((year - 1) * 12 + (month - 1)) * 4 + (week - 1)
    }
  }

  /** The calendar record's date as a value. */
  function CalendarOf(time: Time): Calendar
    reads time
  {
    Calendar(time.week, time.month, time.year)
  }

  /** The following week: a fifth week starts the next month, a thirteenth month the next year. */
  function Advance(c: Calendar): Calendar {
    var week := c.week + 1;
    if week > 4 then
      var month := c.month + 1;
      if month > 12 then Calendar(1, 1, c.year + 1) else Calendar(1, month, c.year)
    else Calendar(week, c.month, c.year)
  }

  /** `n` weeks later. */
  function AdvanceBy(c: Calendar, n: nat): Calendar {
    if n == 0 then c else Advance(AdvanceBy(c, n - 1))
  }

  /**
   * Advancing keeps a date valid and moves it exactly one week on; a month
   * starts exactly when the old week was the fourth, and a year exactly when
   * that fourth week closed month twelve.
   */
  lemma AdvanceStep(c: Calendar)
    requires c.Valid()
    ensures Advance(c).Valid()
    ensures Advance(c).Ordinal() == c.Ordinal() + 1
    ensures Advance(c).week == 1 <==> c.week == 4
    ensures Advance(c).year != c.year <==> c.week == 4 && c.month == 12
  {}

  /** Advancing `n` times moves a valid date exactly `n` weeks on. */
  lemma {:induction false} AdvanceByWeeks(c: Calendar, n: nat)
    requires c.Valid()
    ensures AdvanceBy(c, n).Valid()
    ensures AdvanceBy(c, n).Ordinal() == c.Ordinal() + n
  {
    if n > 0 {
      AdvanceByWeeks(c, n - 1);
      AdvanceStep(AdvanceBy(c, n - 1));
    }
  }

  /** Four weeks after any valid date is the same week of the next month. */
  lemma FourWeeksMakeAMonth(c: Calendar)
    requires c.Valid()
    ensures var d := AdvanceBy(c, 4);
      && d.week == c.week
      && (if c.month == 12 then d.month == 1 && d.year == c.year + 1 else d.month == c.month + 1 && d.year == c.year)
  {
    assert AdvanceBy(c, 1) == Advance(c);
    assert AdvanceBy(c, 2) == Advance(Advance(c));
    assert AdvanceBy(c, 3) == Advance(Advance(Advance(c)));
  }

  /** Moves the calendar record one week on. */
  method AdvanceCalendar(time: Time)
    modifies time`week, time`month, time`year
    ensures CalendarOf(time) == Advance(old(CalendarOf(time)))
  {
    time.week := time.week + 1;
    if time.week > 4 {
      time.week := 1;
      time.month := time.month + 1;
      if time.month > 12 {
        time.month := 1;
        time.year := time.year + 1;
      }
    }
  }

  // -------------------------------------------------------------- interest

  /** Savings rate for a month in which savings were drawn on. */
  const ReducedSavingsRate: real := 0.0004166667
  /** Savings rate for a month without withdrawals. */
  const PremiumSavingsRate: real := 0.00375
  const RetirementRate: real := 0.0064583333

  function SavingsRate(withdrawn: bool): real {
    if withdrawn then ReducedSavingsRate else PremiumSavingsRate
  }

  /** The ledger name of the savings interest entry. */
  function InterestName(withdrawn: bool): string {
    if withdrawn then "Interest" else "Premium Interest"
  }

  /** `balance * rate`, the interest earned. */
  function Interest(balance: real, rate: real): real {
    balance * rate
  }

  /** A balance after one interest payment. */
  function Accrue(balance: real, rate: real): real {
    balance + Interest(balance, rate)
  }

  /** A non-negative balance never shrinks, and a positive one grows faster at a higher rate. */
  lemma AccrueOrder(balance: real, low: real, high: real)
    requires 0.0 <= low <= high
    ensures balance >= 0.0 ==> balance <= Accrue(balance, low) <= Accrue(balance, high)
    ensures balance > 0.0 && low < high ==> Accrue(balance, low) < Accrue(balance, high)
  {
    if balance >= 0.0 {
      MulNonNegative(balance, low);
      MulNonNegative(balance, high - low);
      assert balance * high == balance * low + balance * (high - low);
    }
    if balance > 0.0 && low < high {
      assert balance * (high - low) > 0.0;
      assert balance * high == balance * low + balance * (high - low);
    }
  }

  /** A month without withdrawals earns strictly more on positive savings. */
  lemma PremiumPaysMore(savings: real)
    requires savings > 0.0
    ensures Accrue(savings, SavingsRate(true)) < Accrue(savings, SavingsRate(false))
  {
    AccrueOrder(savings, ReducedSavingsRate, PremiumSavingsRate);
  }

  /** The two interest entries filed at the start of a month. */
  function InterestEntries(withdrawn: bool, savingsBefore: real, savingsAfter: real,
                           retirementBefore: real, retirementAfter: real, date: nat): seq<Transaction>
  {
    [ Transaction("Savings", InterestName(withdrawn), savingsAfter - savingsBefore, date, savingsAfter),
      Transaction("Retirement Savings", "Interest", retirementAfter - retirementBefore, date + 1, retirementAfter) ]
  }

  /**
   * Month-start bookkeeping: interest on savings (reduced after a withdrawal)
   * and on retirement savings, a redraw of weekly expenses when `increase`
   * holds, the three changes returned, and two interest entries filed.
   */
  method ApplyMonthStart(player: Player, store: Store, withdrawn: bool, increase: bool, expenseDraw: real)
    returns (savingsChange: real, retirementSavingsChange: real, expensesChange: real)
    requires store.Valid()
    requires 0.0 <= expenseDraw <= 1.0
    modifies player`savings, player`retirementSavings, player`weeklyExpenses
    modifies store`transactions, store`now
    ensures store.Valid()
    ensures player.savings == Accrue(old(player.savings), SavingsRate(withdrawn))
    ensures player.retirementSavings == Accrue(old(player.retirementSavings), RetirementRate)
    ensures player.weeklyExpenses ==
      if increase then GenerateWeeklyExpenses(player.WeeklyIncome(), expenseDraw) else old(player.weeklyExpenses)
    ensures savingsChange == player.savings - old(player.savings)
    ensures retirementSavingsChange == player.retirementSavings - old(player.retirementSavings)
    ensures expensesChange == player.weeklyExpenses - old(player.weeklyExpenses)
    ensures store.transactions == old(store.transactions) + InterestEntries(
      withdrawn, old(player.savings), player.savings,
      old(player.retirementSavings), player.retirementSavings, old(store.now))
    ensures store.now == old(store.now) + 2
  {
    var oldSavings := player.savings;
    var oldRetirementSavings := player.retirementSavings;
    var oldExpenses := player.weeklyExpenses;
    if withdrawn {
      player.savings := player.savings + Interest(player.savings, ReducedSavingsRate);
    } else {
      player.savings := player.savings + Interest(player.savings, PremiumSavingsRate);
    }
    player.retirementSavings := player.retirementSavings + Interest(player.retirementSavings, RetirementRate);
    if increase {
      player.weeklyExpenses := GenerateWeeklyExpenses(player.WeeklyIncome(), expenseDraw);
    }
    savingsChange := player.savings - oldSavings;
    retirementSavingsChange := player.retirementSavings - oldRetirementSavings;
    expensesChange := player.weeklyExpenses - oldExpenses;
    store.SaveTransaction("Savings", InterestName(withdrawn), savingsChange, player.savings);
    store.SaveTransaction("Retirement Savings", "Interest", retirementSavingsChange, player.retirementSavings);
  }

  // ---------------------------------------------------------------- payday

  /** The income and expense entries of a week, starting from spending balance `spending`. */
  function PayEntries(spending: real, income: real, expenses: real, date: nat): seq<Transaction> {
    [ Transaction("Everyday Spending", "Weekly Income", income, date, spending + income),
      Transaction("Everyday Spending", "Weekly Expenses", -expenses, date + 1, spending + income - expenses) ]
  }

  /** A week's pay: the ledger's two entries sum to the change in spending. */
  lemma PayEntriesBalance(spending: real, income: real, expenses: real, date: nat)
    ensures var entries := PayEntries(spending, income, expenses, date);
      && spending + entries[0].value + entries[1].value == entries[1].balanceAfter
      && entries[0].date < entries[1].date
  {}

  /** Credits the week's income to spending and debits the weekly expenses, filing one entry each. */
  method PayWeek(player: Player, store: Store)
    requires store.Valid()
    modifies player`spendingAccount, store`transactions, store`now
    ensures store.Valid()
    ensures player.spendingAccount == old(player.spendingAccount) + player.WeeklyIncome() - player.weeklyExpenses
    ensures store.transactions == old(store.transactions)
      + PayEntries(old(player.spendingAccount), player.WeeklyIncome(), player.weeklyExpenses, old(store.now))
    ensures store.now == old(store.now) + 2
  {
    player.spendingAccount := player.spendingAccount + player.WeeklyIncome();
    var balanceAfterTransactionReceive := player.spendingAccount;
    store.SaveTransaction("Everyday Spending", "Weekly Income", player.WeeklyIncome(), balanceAfterTransactionReceive);
    player.spendingAccount := player.spendingAccount - player.weeklyExpenses;
    var balanceAfterTransactionSpend := player.spendingAccount;
    store.SaveTransaction("Everyday Spending", "Weekly Expenses", -player.weeklyExpenses, balanceAfterTransactionSpend);
  }

  // ---------------------------------------------------------- the week ends

  /** The draw below which expenses are redrawn at a month start. */
  const IncreaseChance: real := 0.8

  /**
   * Ends the week. `time` and `player` are the first stored records, absent
   * when none exist; `increaseDraw` and `expenseDraw` are the two uniform
   * draws in [0, 1]. The three change values are Swift `inout` parameters,
   * passed in and returned; they change only at a month start.
   */
  method ForwardTime(time: Time?, player: Player?, store: Store, flags: Flags, increaseDraw: real, expenseDraw: real,
                     savingsChange: real, retirementSavingsChange: real, expensesChange: real)
    returns (savingsOut: real, retirementOut: real, expensesOut: real)
    requires store.Valid()
    requires 0.0 <= increaseDraw <= 1.0 && 0.0 <= expenseDraw <= 1.0
    modifies (if time != null then {time} else {})`week, (if time != null then {time} else {})`month
    modifies (if time != null then {time} else {})`year
    modifies (if player != null then {player} else {})`savings, (if player != null then {player} else {})`retirementSavings
    modifies (if player != null then {player} else {})`weeklyExpenses
    modifies (if player != null then {player} else {})`spendingAccount
    modifies store`transactions, store`now
    modifies flags`doneThisWeeksQuiz, flags`doneThisWeeksInteractiveEvent
    modifies flags`completedLessonThisWeek, flags`withdrawnThisMonth
    ensures store.Valid()
    ensures time != null ==> CalendarOf(time) == Advance(old(CalendarOf(time)))
    ensures player != null ==>
      var monthStart := time != null && time.week == 1;
      var withdrawn := old(flags.withdrawnThisMonth);
      && player.savings ==
           (if monthStart then Accrue(old(player.savings), SavingsRate(withdrawn)) else old(player.savings))
      && player.retirementSavings ==
           (if monthStart then Accrue(old(player.retirementSavings), RetirementRate) else old(player.retirementSavings))
      && player.weeklyExpenses ==
           (if monthStart && increaseDraw < IncreaseChance
            then GenerateWeeklyExpenses(player.WeeklyIncome(), expenseDraw)
            else old(player.weeklyExpenses))
      && player.spendingAccount == old(player.spendingAccount) + player.WeeklyIncome() - player.weeklyExpenses
      && savingsOut == (if monthStart then player.savings - old(player.savings) else savingsChange)
      && retirementOut ==
           (if monthStart then player.retirementSavings - old(player.retirementSavings) else retirementSavingsChange)
      && expensesOut ==
           (if monthStart then player.weeklyExpenses - old(player.weeklyExpenses) else expensesChange)
      && store.transactions == old(store.transactions)
           + (if monthStart
              then InterestEntries(withdrawn, old(player.savings), player.savings,
                                   old(player.retirementSavings), player.retirementSavings, old(store.now))
              else [])
           + PayEntries(old(player.spendingAccount), player.WeeklyIncome(), player.weeklyExpenses,
                        old(store.now) + (if monthStart then 2 else 0))
    ensures player == null ==>
      && store.transactions == old(store.transactions)
      && savingsOut == savingsChange && retirementOut == retirementSavingsChange && expensesOut == expensesChange
    ensures !flags.doneThisWeeksQuiz && !flags.doneThisWeeksInteractiveEvent
    ensures !flags.completedLessonThisWeek && !flags.withdrawnThisMonth
  {
    savingsOut, retirementOut, expensesOut := savingsChange, retirementSavingsChange, expensesChange;
    var increase := increaseDraw < IncreaseChance;
    if time != null {
      AdvanceCalendar(time);
      if time.week == 1 && player != null {
        savingsOut, retirementOut, expensesOut :=
          ApplyMonthStart(player, store, flags.withdrawnThisMonth, increase, expenseDraw);
      }
    }
    if player != null {
      PayWeek(player, store);
    }
    ResetWeeklyFlags(flags);
  }

  /** Clears the weekly flags, and the monthly withdrawal flag with them. */
  method ResetWeeklyFlags(flags: Flags)
    modifies flags`doneThisWeeksQuiz, flags`doneThisWeeksInteractiveEvent
    modifies flags`completedLessonThisWeek, flags`withdrawnThisMonth
    ensures !flags.doneThisWeeksQuiz && !flags.doneThisWeeksInteractiveEvent
    ensures !flags.completedLessonThisWeek && !flags.withdrawnThisMonth
  {
    flags.doneThisWeeksQuiz := false;
    flags.doneThisWeeksInteractiveEvent := false;
    flags.completedLessonThisWeek := false;
    flags.withdrawnThisMonth := false;
  }
}
