/**
 * The game's persistent entities: the player and the three accounts, the job
 * with its promotion tables, the calendar, the ledger of transactions, owned
 * items and completed lessons, together with the store that holds the records
 * and the process-wide session flags.
 *
 * Money is modelled as `real`: every property holds in exact arithmetic.
 */
module Models {
  import opened Wrappers

  // ------------------------------------------------------------------ accounts

  /** The three player accounts. */
  datatype Account = Spending | Savings | Retirement

  /** The account's raw value ("Spending", ...), quoted in transfer entry names. */
  function RawValue(a: Account): string {
    match a
    case Spending => "Spending"
    case Savings => "Savings"
    case Retirement => "Retirement"
  }

  /** The label under which ledger entries of an account are filed. */
  function Label(a: Account): (s: string)
    ensures s == "Everyday Spending" <==> a == Spending
    ensures s == "Savings" <==> a == Savings
    ensures s == "Retirement Savings" <==> a == Retirement
  {
    match a
    case Spending => "Everyday Spending"
    case Savings => "Savings"
    case Retirement => "Retirement Savings"
  }

  /** Balance below which the event weighting calls an account underfunded. */
  function UnderfundedThreshold(a: Account): (t: real)
    ensures a == Spending ==> t == 200.0
    ensures a == Savings ==> t == 1000.0
    ensures a == Retirement ==> t == 500.0
  {
    match a
    case Spending => 200.0
    case Savings => 1000.0
    case Retirement => 500.0
  }

  /** A snapshot of the three balances of a player. */
  datatype Balances = Balances(spending: real, savings: real, retirement: real) {

    /** The balance held in account `a`. */
    function Of(a: Account): real {
      match a
      case Spending => spending
      case Savings => savings
      case Retirement => retirement
    }

    /** The sum of the three balances. */
    function Total(): real {
      spending + savings + retirement
    }

    /** These balances with account `a` set to `v`. */
    function With(a: Account, v: real): (b: Balances)
      ensures b.Of(a) == v
      ensures forall c :: c != a ==> b.Of(c) == Of(c)
      ensures b.Total() == Total() - Of(a) + v
    {
      match a
      case Spending => this.(spending := v)
      case Savings => this.(savings := v)
      case Retirement => this.(retirement := v)
    }
  }

  // ------------------------------------------------------------- wealth class

  datatype WealthClass = Lower | Middle | Upper

  /**
   * The wealth class of a spending balance. The source switches over the
   * ranges [0, 1000) and [1000, 10000); everything else, negative balances
   * included, falls to the default arm.
   */
  function WealthClassOf(money: real): (c: WealthClass)
    ensures c == Lower <==> 0.0 <= money < 1000.0
    ensures c == Middle <==> 1000.0 <= money < 10000.0
    ensures c == Upper <==> money < 0.0 || 10000.0 <= money
  {
    if 0.0 <= money < 1000.0 then Lower
    else if 1000.0 <= money < 10000.0 then Middle
    else Upper
  }

  // --------------------------------------------------------------------- job

  /** Promotion progress never exceeds this value. */
  const MaxProgress: int := 350

  /** The level thresholds, in increasing order. */
  const Breakpoints: seq<int> := [25, 75, 150, 250, 350]

  /** The promotion level of a progress counter; negative progress is level 0. */
  function PromotionLevel(progress: int): nat {
    if 0 <= progress < 25 then 0
    else if 25 <= progress < 75 then 1
    else if 75 <= progress < 150 then 2
    else if 150 <= progress < 250 then 3
    else if 250 <= progress < 350 then 4
    else if 350 <= progress then 5
    else 0
  }

  /** How many of the thresholds `bs` a progress counter has reached. */
  function Reached(progress: int, bs: seq<int>): (n: nat)
    ensures n <= |bs|
  {
    if bs == [] then 0
    else (if bs[0] <= progress then 1 else 0) + Reached(progress, bs[1..])
  }

  /** The level is the number of breakpoints reached, hence in 0..5. */
  lemma {:induction false} LevelCountsBreakpoints(progress: int)
    ensures PromotionLevel(progress) == Reached(progress, Breakpoints)
    ensures PromotionLevel(progress) <= 5
  {
    var bs := Breakpoints;
    assert bs[1..][1..][1..][1..][1..] == [];
    assert Reached(progress, bs[1..][1..][1..][1..]) == (if 350 <= progress then 1 else 0);
    assert Reached(progress, bs[1..][1..][1..]) == (if 250 <= progress then 1 else 0) + (if 350 <= progress then 1 else 0);
    assert Reached(progress, bs[1..][1..]) == (if 150 <= progress then 1 else 0) + Reached(progress, bs[1..][1..][1..]);
    assert Reached(progress, bs[1..]) == (if 75 <= progress then 1 else 0) + Reached(progress, bs[1..][1..]);
  }

  /** More progress never means a lower level. */
  lemma LevelMonotone(p: int, q: int)
    requires p <= q
    ensures PromotionLevel(p) <= PromotionLevel(q)
  {
    LevelCountsBreakpoints(p);
    LevelCountsBreakpoints(q);
    ReachedMonotone(p, q, Breakpoints);
  }

  lemma {:induction false} ReachedMonotone(p: int, q: int, bs: seq<int>)
    requires p <= q
    ensures Reached(p, bs) <= Reached(q, bs)
  {
    if bs != [] {
      ReachedMonotone(p, q, bs[1..]);
    }
  }

  /** The job title of a level. */
  function Title(level: int): string {
    match level
    case 1 => "Apprentice"
    case 2 => "Professional"
    case 3 => "Expert"
    case 4 => "Master"
    case 5 => "Legend"
    case _ => "Newbie"
  }

  /** The progress a player must reach to leave a level. */
  function PromotionGoal(level: int): int {
    match level
    case 1 => 75
    case 2 => 150
    case 3 => 250
    case 4 => 349
    case 5 => 350
    case _ => 25
  }

  /** The weekly income of a level. */
  function Income(level: int): (r: real)
    ensures r >= 950.24
  {
    match level
    case 1 => 1094.43
    case 2 => 1175.73
    case 3 => 1245.89
    case 4 => 1325.13
    case 5 => 1400.24
    case _ => 950.24
  }

  /** Income grows strictly with the level. */
  lemma IncomeStrictlyIncreasing(l: int, m: int)
    requires 0 <= l < m <= 5
    ensures Income(l) < Income(m)
  {}

  /**
   * For progress in [0, 350] the goal of the current level is never below the
   * progress. Reaching the goal of levels 0 to 3 moves to the next level; the
   * goal of level 4 (349) is one short of level 5.
   */
  lemma ProgressWithinGoal(p: int)
    requires 0 <= p <= MaxProgress
    ensures p <= PromotionGoal(PromotionLevel(p))
    ensures PromotionLevel(p) < 4 ==> PromotionLevel(PromotionGoal(PromotionLevel(p))) == PromotionLevel(p) + 1
    ensures PromotionLevel(PromotionGoal(4)) == 4
  {}

  /** The player's job record; the source updates its progress in place. */
  class Job {
    var progress: int

    ghost predicate Valid()
      reads this
    {
      progress <= MaxProgress
    }

    /** Clamps the initial progress from above only. */
    constructor (initialProgress: int)
      ensures progress <= MaxProgress
      ensures initialProgress <= MaxProgress ==> progress == initialProgress
      ensures initialProgress > MaxProgress ==> progress == MaxProgress
      ensures Valid()
    {
      progress := if initialProgress < MaxProgress then initialProgress else MaxProgress;
    }

    function Level(): nat
      reads this
    {
      PromotionLevel(progress)
    }

    function JobTitle(): string
      reads this
    {
      Title(Level())
    }

    function Goal(): int
      reads this
    {
      PromotionGoal(Level())
    }

    function JobIncome(): real
      reads this
    {
      Income(Level())
    }
  }

  // ------------------------------------------------------------ weekly costs

  function Max(a: real, b: real): real {
    if a < b then b else a
  }

  /**
   * A weekly expense drawn uniformly from [max(0, income - 80), income + 40];
   * `u` in [0, 1] is the position of the draw in that closed range.
   */
  function GenerateWeeklyExpenses(weeklyIncome: real, u: real): (e: real)
    requires weeklyIncome >= -40.0
    requires 0.0 <= u <= 1.0
    ensures Max(0.0, weeklyIncome - 80.0) <= e <= weeklyIncome + 40.0
    ensures e >= 0.0
  {
    var lower := Max(0.0, weeklyIncome - 80.0);
    var upper := weeklyIncome + 40.0;
    ScaledDrawInRange(lower, upper, u);
    lower + u * (upper - lower)
  }

  lemma ScaledDrawInRange(lower: real, upper: real, u: real)
    requires 0.0 <= u <= 1.0 && lower <= upper
    ensures lower <= lower + u * (upper - lower) <= upper
  {
    MulNonNegative(u, upper - lower);
    MulNonNegative(1.0 - u, upper - lower);
    assert (1.0 - u) * (upper - lower) == (upper - lower) - u * (upper - lower);
  }

  lemma MulNonNegative(a: real, b: real)
    requires 0.0 <= a && 0.0 <= b
    ensures 0.0 <= a * b
  {}

  /** Every value of the range is the outcome of some draw. */
  lemma WeeklyExpensesCoverRange(weeklyIncome: real, e: real)
    requires weeklyIncome >= -40.0
    requires Max(0.0, weeklyIncome - 80.0) <= e <= weeklyIncome + 40.0
    ensures exists u :: 0.0 <= u <= 1.0 && GenerateWeeklyExpenses(weeklyIncome, u) == e
  {
    var lower := Max(0.0, weeklyIncome - 80.0);
    var upper := weeklyIncome + 40.0;
    if upper == lower {
      assert GenerateWeeklyExpenses(weeklyIncome, 0.0) == e;
    } else {
      var u := (e - lower) / (upper - lower);
      assert u * (upper - lower) == e - lower;
      assert u <= 1.0 by {
        assert e - lower <= upper - lower;
      }
      assert GenerateWeeklyExpenses(weeklyIncome, u) == e;
    }
  }

  // ------------------------------------------------------------------ player

  const DefaultSpending: real := 200.0
  const DefaultSavings: real := 500.0
  const DefaultRetirement: real := 250.0

  /** The player record; balances are updated in place by every operation. */
  class Player {
    var name: string
    var weeklyExpenses: real
    var spendingAccount: real
    var savings: real
    var retirementSavings: real
    var job: Job?

    /** The three balances as a value. */
    function Snapshot(): Balances
      reads this
    {
      Balances(spendingAccount, savings, retirementSavings)
    }

    /** The balance of the named account. */
    function Balance(a: Account): real
      reads this
    {
      Snapshot().Of(a)
    }

    function TotalMoney(): (t: real)
      reads this
      ensures t == Balance(Spending) + Balance(Savings) + Balance(Retirement)
    {
      spendingAccount + savings + retirementSavings
    }

    function WealthClass(): WealthClass
      reads this
    {
      WealthClassOf(spendingAccount)
    }

    /** The job's income, or 0 when the player has no job. */
    function WeeklyIncome(): (r: real)
      reads this, job
      ensures job == null <==> r == 0.0
      ensures job != null ==> r == Income(PromotionLevel(job.progress))
    {
      if job == null then 0.0 else job.JobIncome()
    }

    /**
     * Creates a player (the source's defaults are DefaultSpending,
     * DefaultSavings and DefaultRetirement) and draws the first weekly
     * expenses from the job's income with `expenseDraw`.
     */
    constructor (spending: real, savings: real, retirement: real, name: string, job: Job?, expenseDraw: real)
      requires 0.0 <= expenseDraw <= 1.0
      ensures this.name == name && this.job == job
      ensures Snapshot() == Balances(spending, savings, retirement)
      ensures weeklyExpenses == GenerateWeeklyExpenses(WeeklyIncome(), expenseDraw)
    {
      this.name := name;
      this.spendingAccount := spending;
      this.savings := savings;
      this.retirementSavings := retirement;
      this.job := job;
      var income := if job == null then 0.0 else Income(PromotionLevel(job.progress));
      this.weeklyExpenses := GenerateWeeklyExpenses(income, expenseDraw);
    }
  }

  // ---------------------------------------------------------------- records

  /** A ledger entry; `date` is the store's clock when it was saved. */
  datatype Transaction = Transaction(account: string, name: string, value: real, date: nat, balanceAfter: real)

  /** An item the player owns. */
  datatype OwnedItem = OwnedItem(name: string, price: real, icon: string, isSellable: bool, quantity: int, value: real)

  /** A lesson the player has finished at least once. */
  datatype CompletedLesson = CompletedLesson(lessonId: int, title: string, allQuestionsCorrect: bool)

  /** At most one completion record per lesson id. */
  ghost predicate UniqueLessonIds(rs: seq<CompletedLesson>) {
    forall i, j :: 0 <= i < j < |rs| ==> rs[i].lessonId != rs[j].lessonId
  }

  /** The calendar record. */
  class Time {
    var week: int
    var month: int
    var year: int

    ghost predicate Valid()
      reads this
    {
      1 <= week <= 4 && 1 <= month <= 12 && 1 <= year
    }

    constructor (week: int, month: int, year: int)
      ensures this.week == week && this.month == month && this.year == year
    {
      this.week := week;
      this.month := month;
      this.year := year;
    }
  }

  /**
   * The persistent store: every record of every kind, and a clock that stands
   * for `Date.now` and advances with each saved transaction.
   */
  class Store {
    var players: seq<Player>
    var jobs: seq<Job>
    var times: seq<Time>
    var transactions: seq<Transaction>
    var ownedItems: seq<OwnedItem>
    var completedLessons: seq<CompletedLesson>
    var now: nat

    /** Ledger dates strictly increase and lie in the past; lesson ids are unique. */
    ghost predicate Valid()
      reads this`transactions, this`now, this`completedLessons
    {
      && (forall i, j :: 0 <= i < j < |transactions| ==> transactions[i].date < transactions[j].date)
      && (forall i :: 0 <= i < |transactions| ==> transactions[i].date < now)
      && UniqueLessonIds(completedLessons)
    }

    constructor ()
      ensures Valid()
      ensures players == [] && jobs == [] && times == []
      ensures transactions == [] && ownedItems == [] && completedLessons == []
    {
      players, jobs, times := [], [], [];
      transactions, ownedItems, completedLessons := [], [], [];
      now := 0;
    }

    /** Appends one entry stamped with the current time; nothing else changes. */
    method SaveTransaction(account: string, name: string, value: real, balanceAfter: real)
      requires Valid()
      modifies this`transactions, this`now
      ensures Valid()
      ensures transactions == old(transactions) + [Transaction(account, name, value, old(now), balanceAfter)]
      ensures now == old(now) + 1
    {
      transactions := transactions + [Transaction(account, name, value, now, balanceAfter)];
      now := now + 1;
    }
  }

  /** The process-wide session flags kept in the app's settings. */
  class Flags {
    var withdrawnThisMonth: bool
    var doneThisWeeksQuiz: bool
    var doneThisWeeksInteractiveEvent: bool
    var completedLessonThisWeek: bool
    var completedTutorial: bool
    var completedWelcome: bool
    var currentPage: int
    var isInitialised: bool

    constructor ()
      ensures !withdrawnThisMonth && !doneThisWeeksQuiz && !doneThisWeeksInteractiveEvent
      ensures !completedLessonThisWeek && !completedTutorial && !completedWelcome
      ensures currentPage == 0 && !isInitialised
    {
      withdrawnThisMonth, doneThisWeeksQuiz, doneThisWeeksInteractiveEvent := false, false, false;
      completedLessonThisWeek, completedTutorial, completedWelcome := false, false, false;
      currentPage, isInitialised := 0, false;
    }
  }
}
