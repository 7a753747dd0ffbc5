/**
 * The account detail screen: the account's ledger history, newest first; the
 * signed amount on each entry; and the breakdown of the weekly expenses into
 * spending categories, largest first.
 */
module AccountDetail {
  import opened Models

  // -------------------------------------------------------------- sorting

  /** Whether `key` never increases along `s`. */
  predicate Descending<T>(s: seq<T>, key: T -> real) {
    forall i :: 0 < i < |s| ==> key(s[i - 1]) >= key(s[i])
  }

  /** `x` placed into the descending `s` ahead of the first element with a smaller key. */
  function Insert<T>(x: T, s: seq<T>, key: T -> real): (r: seq<T>)
    requires Descending(s, key)
    ensures Descending(r, key)
    ensures multiset(r) == multiset(s) + multiset{x}
    ensures |r| == |s| + 1
    ensures r != [] && (r[0] == x || (s != [] && r[0] == s[0]))
  {
    if s == [] || key(s[0]) < key(x) then [x] + s
    else
      var rest := Insert(x, s[1..], key);
      assert s == [s[0]] + s[1..];
      [s[0]] + rest
  }

  /** Swift's `sorted(by:)` with a greater-than comparison on `key`. */
  function SortDescending<T>(s: seq<T>, key: T -> real): (r: seq<T>)
    ensures Descending(r, key)
    ensures multiset(r) == multiset(s)
    ensures |r| == |s|
  {
    if s == [] then []
    else
      assert s == [s[0]] + s[1..];
      Insert(s[0], SortDescending(s[1..], key), key)
  }

  /** The first element of the sorted sequence is one of the input's, with the largest key. */
  lemma SortedHeadIsLargest<T>(s: seq<T>, key: T -> real)
    requires s != []
    ensures SortDescending(s, key) != []
    ensures SortDescending(s, key)[0] in s
    ensures forall x :: x in s ==> key(SortDescending(s, key)[0]) >= key(x)
  {
    var r := SortDescending(s, key);
    assert r[0] in multiset(s);
    DescendingEverywhere(r, key);
    forall x | x in s ensures key(r[0]) >= key(x) {
      assert x in multiset(r);
      var j :| 0 <= j < |r| && r[j] == x;
    }
  }

  // -------------------------------------------------------------- history

  /** The entries filed under `accountName`, in ledger order. */
  function Filter(transactions: seq<Transaction>, accountName: string): (r: seq<Transaction>)
    ensures forall t :: t in r <==> t in transactions && t.account == accountName
    ensures |r| <= |transactions|
  {
    if transactions == [] then []
    else
      var init := transactions[..|transactions| - 1];
      var last := transactions[|transactions| - 1];
      assert transactions == init + [last];
      Filter(init, accountName) + (if last.account == accountName then [last] else [])
  }

  /** The entry's date, as the sort key. */
  function DateKey(t: Transaction): real {
    t.date as real
  }

  /** The account's history: its entries, newest first. */
  function History(transactions: seq<Transaction>, accountName: string): seq<Transaction> {
    SortDescending(Filter(transactions, accountName), DateKey)
  }

  /**
   * The history lists exactly the account's entries, each as often as the
   * ledger holds it, in order of non-increasing date; it is empty, and the
   * screen says "No Transactions", exactly when no entry is filed under the
   * account.
   */
  lemma HistoryContents(transactions: seq<Transaction>, accountName: string)
    ensures multiset(History(transactions, accountName)) == multiset(Filter(transactions, accountName))
    ensures forall t :: t in History(transactions, accountName) <==> t in transactions && t.account == accountName
    ensures forall i, j :: 0 <= i < j < |History(transactions, accountName)| ==>
      History(transactions, accountName)[i].date >= History(transactions, accountName)[j].date
    ensures History(transactions, accountName) == [] <==>
      forall k :: 0 <= k < |transactions| ==> transactions[k].account != accountName
  {
    var h := History(transactions, accountName);
    var f := Filter(transactions, accountName);
    forall t ensures t in h <==> t in f {
      assert t in h <==> t in multiset(h);
      assert t in f <==> t in multiset(f);
    }
    DescendingEverywhere(h, DateKey);
    if h == [] {
      assert |f| == 0;
      forall k | 0 <= k < |transactions| ensures transactions[k].account != accountName {
        assert transactions[k] in transactions;
      }
    }
  }

  /** Descending between neighbours is descending between any two positions. */
  lemma DescendingEverywhere<T>(s: seq<T>, key: T -> real)
    requires Descending(s, key)
    ensures forall i, j :: 0 <= i < j < |s| ==> key(s[i]) >= key(s[j])
  {
    forall i, j | 0 <= i < j < |s| ensures key(s[i]) >= key(s[j]) {
      var k := j;
      while k > i
        invariant i <= k <= j
        invariant key(s[k]) >= key(s[j])
      {
        k := k - 1;
      }
    }
  }

  // ------------------------------------------------------------- amounts

  /** The sign shown before an entry's amount. */
  function SignPrefix(value: real): string {
    if value >= 0.0 then "+" else "-"
  }

  /** The magnitude shown after the sign. */
  function Magnitude(value: real): (m: real)
    ensures m >= 0.0
  {
    if value >= 0.0 then value else -value
  }

  /** The sign and the magnitude shown together give back the entry's value. */
  lemma SignAndMagnitude(value: real)
    ensures (if SignPrefix(value) == "+" then Magnitude(value) else -Magnitude(value)) == value
    ensures SignPrefix(value) == "-" <==> value < 0.0
  {}

  // ----------------------------------------------------- expense breakdown

  /** The spending categories. */
  datatype Category = Housing | Transportation | Food | Healthcare
                    | InsuranceAndPensions | Entertainment | Clothing | Miscellaneous

  /** The category's name on screen. */
  function Name(c: Category): string {
    match c
    case Housing => "Housing"
    case Transportation => "Transportation"
    case Food => "Food"
    case Healthcare => "Healthcare"
    case InsuranceAndPensions => "Insurance & Pensions"
    case Entertainment => "Entertainment"
    case Clothing => "Clothing"
    case Miscellaneous => "Miscellaneous"
  }

  /** The share of the weekly expenses put down to each category. */
  function Percentage(c: Category): real {
    match c
    case Housing => 0.35
    case Transportation => 0.15
    case Food => 0.15
    case Healthcare => 0.10
    case InsuranceAndPensions => 0.10
    case Entertainment => 0.07
    case Clothing => 0.03
    case Miscellaneous => 0.05
  }

  /** The categories, each once. */
  const Categories: seq<Category> := [
    Housing, Transportation, Food, Healthcare, InsuranceAndPensions, Entertainment, Clothing, Miscellaneous]

  /** The categories as a set: the dictionary's keys. */
  const CategorySet: set<Category> :=
    {Housing, Transportation, Food, Healthcare, InsuranceAndPensions, Entertainment, Clothing, Miscellaneous}

  /** The set holds every category. */
  lemma CategorySetComplete()
    ensures forall c :: c in CategorySet
  {
    forall c ensures c in CategorySet {
      match c
      case Housing =>
      case Transportation =>
      case Food =>
      case Healthcare =>
      case InsuranceAndPensions =>
      case Entertainment =>
      case Clothing =>
      case Miscellaneous =>
    }
  }

  /** Every category is listed, once, and each goes by a name of its own. */
  lemma AllCategoriesListed()
    ensures forall c :: c in Categories
    ensures forall i, j :: 0 <= i < j < |Categories| ==> Categories[i] != Categories[j]
    ensures forall c, d :: c != d ==> Name(c) != Name(d)
  {
    forall c ensures c in Categories {
      match c
      case Housing => assert Categories[0] == c;
      case Transportation => assert Categories[1] == c;
      case Food => assert Categories[2] == c;
      case Healthcare => assert Categories[3] == c;
      case InsuranceAndPensions => assert Categories[4] == c;
      case Entertainment => assert Categories[5] == c;
      case Clothing => assert Categories[6] == c;
      case Miscellaneous => assert Categories[7] == c;
    }
  }

  /**
   * Splits the weekly expenses by category. The dictionary is visited in an
   * unspecified order, so each step takes any category not yet visited.
   */
  method BreakdownExpenses(weeklyExpenses: real) returns (expenseBreakdown: map<Category, real>)
    ensures forall category :: category in expenseBreakdown
    ensures forall category :: category in expenseBreakdown ==>
      expenseBreakdown[category] == weeklyExpenses * Percentage(category)
  {
    expenseBreakdown := map[];
    var remaining := CategorySet;
    CategorySetComplete();
    while remaining != {}
      invariant forall category :: category in remaining || category in expenseBreakdown
      invariant forall category :: category in expenseBreakdown ==>
        expenseBreakdown[category] == weeklyExpenses * Percentage(category)
      decreases |remaining|
    {
      var category :| category in remaining;
      var percentage := Percentage(category);
      expenseBreakdown := expenseBreakdown[category := weeklyExpenses * percentage];
      remaining := remaining - {category};
    }
  }

  /** The sum of `m`'s values over the listed keys. */
  function SumOver(keys: seq<Category>, m: map<Category, real>): real
    requires forall k :: k in keys ==> k in m
  {
    if keys == [] then 0.0 else m[keys[0]] + SumOver(keys[1..], m)
  }

  /**
   * The shares sum to one, so the breakdown's amounts over the listed
   * categories add up to the weekly expenses.
   */
  lemma BreakdownAddsUp(weeklyExpenses: real, expenseBreakdown: map<Category, real>)
    requires forall category :: category in expenseBreakdown
    requires forall category :: category in expenseBreakdown ==>
      expenseBreakdown[category] == weeklyExpenses * Percentage(category)
    ensures SumOver(Categories, expenseBreakdown) == weeklyExpenses
  {
    var m, w := expenseBreakdown, weeklyExpenses;
    assert SumOver(Categories[8..], m) == 0.0;
    assert SumOver(Categories[7..], m) == w * 0.05;
    assert SumOver(Categories[6..], m) == w * 0.08;
    assert SumOver(Categories[5..], m) == w * 0.15;
    assert SumOver(Categories[4..], m) == w * 0.25;
    assert SumOver(Categories[3..], m) == w * 0.35;
    assert SumOver(Categories[2..], m) == w * 0.50;
    assert SumOver(Categories[1..], m) == w * 0.65;
    assert SumOver(Categories, m) == w;
  }

  /** A breakdown row: a category and its amount. */
  datatype Row = Row(category: Category, value: real)

  /** The row's amount, as the sort key. */
  function ValueKey(r: Row): real {
    r.value
  }

  /** The rows of a breakdown in the dictionary's order `order`. */
  function RowsInOrder(expenseBreakdown: map<Category, real>, order: seq<Category>): (rows: seq<Row>)
    requires forall k :: k in order ==> k in expenseBreakdown
    ensures |rows| == |order|
    ensures forall i :: 0 <= i < |order| ==> rows[i] == Row(order[i], expenseBreakdown[order[i]])
  {
    seq(|order|, i requires 0 <= i < |order| => Row(order[i], expenseBreakdown[order[i]]))
  }

  /** The rows of a breakdown listed in the dictionary's order `order`, largest amount first. */
  function BreakdownRows(expenseBreakdown: map<Category, real>, order: seq<Category>): seq<Row>
    requires forall k :: k in order ==> k in expenseBreakdown
  {
    SortDescending(RowsInOrder(expenseBreakdown, order), ValueKey)
  }

  /**
   * For positive weekly expenses, whatever order the dictionary yields,
   * housing (35%) heads the list and every row lists the eight categories
   * with amounts never increasing.
   */
  lemma HousingComesFirst(weeklyExpenses: real, expenseBreakdown: map<Category, real>, order: seq<Category>)
    requires weeklyExpenses > 0.0
    requires forall category :: category in expenseBreakdown
    requires forall category :: category in expenseBreakdown ==>
      expenseBreakdown[category] == weeklyExpenses * Percentage(category)
    requires forall category :: category in order
    ensures var rows := BreakdownRows(expenseBreakdown, order);
      && rows != []
      && rows[0] == Row(Housing, weeklyExpenses * 0.35)
      && forall i, j :: 0 <= i < j < |rows| ==> rows[i].value >= rows[j].value
  {
    HousingLargestAmount(weeklyExpenses, expenseBreakdown);
    SortedRowsHead(expenseBreakdown, order, Housing);
    BreakdownRowsDescending(expenseBreakdown, order);
  }

  /**
   * When no other category's amount reaches `top`'s, the sorted rows start
   * with `top`'s row, whatever the dictionary's order.
   */
  lemma SortedRowsHead(expenseBreakdown: map<Category, real>, order: seq<Category>, top: Category)
    requires forall k :: k in order ==> k in expenseBreakdown
    requires top in order
    requires forall c :: c in expenseBreakdown && expenseBreakdown[c] >= expenseBreakdown[top] ==> c == top
    ensures var rows := BreakdownRows(expenseBreakdown, order);
      && rows != []
      && rows[0] == Row(top, expenseBreakdown[top])
  {
    var unsorted := RowsInOrder(expenseBreakdown, order);
    var rows := SortDescending(unsorted, ValueKey);
    var h :| 0 <= h < |order| && order[h] == top;
    SortedHeadIsLargest(unsorted, ValueKey);
    assert unsorted[h] in unsorted;
    var k :| 0 <= k < |unsorted| && unsorted[k] == rows[0];
    assert expenseBreakdown[order[k]] >= expenseBreakdown[top] by {
      assert ValueKey(rows[0]) >= ValueKey(unsorted[h]);
    }
  }

  /** The sorted rows' amounts never increase down the list. */
  lemma BreakdownRowsDescending(expenseBreakdown: map<Category, real>, order: seq<Category>)
    requires forall k :: k in order ==> k in expenseBreakdown
    ensures var rows := BreakdownRows(expenseBreakdown, order);
      forall i, j :: 0 <= i < j < |rows| ==> rows[i].value >= rows[j].value
  {
    var rows := BreakdownRows(expenseBreakdown, order);
    DescendingEverywhere(rows, ValueKey);
    forall i, j | 0 <= i < j < |rows| ensures rows[i].value >= rows[j].value {
      assert ValueKey(rows[i]) >= ValueKey(rows[j]);
    }
  }

  /** For positive expenses housing's amount is larger than every other category's. */
  lemma HousingLargestAmount(weeklyExpenses: real, expenseBreakdown: map<Category, real>)
    requires weeklyExpenses > 0.0
    requires forall category :: category in expenseBreakdown
    requires forall category :: category in expenseBreakdown ==>
      expenseBreakdown[category] == weeklyExpenses * Percentage(category)
    ensures forall c :: c in expenseBreakdown && expenseBreakdown[c] >= expenseBreakdown[Housing] ==> c == Housing
  {
    forall c | c in expenseBreakdown && expenseBreakdown[c] >= expenseBreakdown[Housing] ensures c == Housing {
      HousingLargestShare(c, weeklyExpenses);
    }
  }

  /** For positive expenses only housing's amount reaches housing's 35%. */
  lemma HousingLargestShare(category: Category, weeklyExpenses: real)
    requires weeklyExpenses > 0.0
    ensures weeklyExpenses * Percentage(category) >= weeklyExpenses * 0.35 <==> category == Housing
  {
    assert Percentage(category) >= 0.35 <==> category == Housing;
    if Percentage(category) < 0.35 {
      assert weeklyExpenses * (0.35 - Percentage(category)) > 0.0;
    }
  }
}
