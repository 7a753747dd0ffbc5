/**
 * The weekly event: one of three fixed lists (windfalls, ordinary mishaps and
 * rare large mishaps) chosen by a draw, and one event picked from it.
 */
module WeeklyEvents {
  import opened Wrappers

  /**
   * A weekly event; an owed event takes `amount` from the player, any other
   * gives it. The event's description text is display-only and not kept.
   */
  datatype WeeklyEvent = WeeklyEvent(title: string, isMoneyOwed: bool, amount: real)

  /** The windfalls. */
  const PositiveWeeklyEvents: seq<WeeklyEvent> := [
      WeeklyEvent("Bonus at Work", false, 500.0),
      WeeklyEvent("Unexpected Gift", false, 100.0),
      WeeklyEvent("Health Insurance Refund", false, 200.0),
      WeeklyEvent("Car Insurance Discount", false, 100.0),
      WeeklyEvent("Concert Cancelled", false, 90.0),
      WeeklyEvent("Free Coffee", false, 5.0),
      WeeklyEvent("WiFi Outage", false, 20.0),
      WeeklyEvent("Surprise Inheritance", false, 1500.0),
      WeeklyEvent("Found Money", false, 50.0),
      WeeklyEvent("Tax Refund", false, 300.0),
      WeeklyEvent("Gift Card", false, 25.0),
      WeeklyEvent("Freelance Job", false, 200.0),
      WeeklyEvent("Power Outage", false, 100.0),
      WeeklyEvent("Free Meal", false, 30.0)
  ]

  /** The ordinary mishaps. */
  const NegativeWeeklyEvents: seq<WeeklyEvent> := [
      WeeklyEvent("Flat Tyre", true, 100.0),
      WeeklyEvent("Accidental Damage", true, 150.0),
      WeeklyEvent("Lost Wallet", true, 50.0),
      WeeklyEvent("Pet Emergency", true, 200.0),
      WeeklyEvent("Traffic Ticket", true, 60.0),
      WeeklyEvent("Car Accident", true, 150.0),
      WeeklyEvent("Surprise Dinner", true, 40.0),
      WeeklyEvent("Annual Checkup", true, 50.0),
      WeeklyEvent("Movie Night", true, 60.0),
      WeeklyEvent("Anniversary Celebration", true, 80.0),
      WeeklyEvent("Unplanned Road Trip", true, 250.0),
      WeeklyEvent("Wedding Invitation", true, 100.0),
      WeeklyEvent("Rooftop Bar", true, 60.0),
      WeeklyEvent("Parking Fine", true, 40.0)
  ]

  /** The rare large mishaps. */
  const SuperNegativeWeeklyEvents: seq<WeeklyEvent> := [
      WeeklyEvent("Computer Crash", true, 400.0),
      WeeklyEvent("Emergency Room Visit", true, 500.0),
      WeeklyEvent("Broken Appliance", true, 600.0),
      WeeklyEvent("Home Repairs", true, 700.0),
      WeeklyEvent("Earthquake Damage", true, 800.0)
  ]

  /** Every event of `events` is owed or not as `owed` says and costs or pays between `low` and `high`. */
  predicate AllEvents(events: seq<WeeklyEvent>, owed: bool, low: real, high: real) {
    forall k :: 0 <= k < |events| ==> events[k].isMoneyOwed == owed && low <= events[k].amount <= high
  }

  /** The fourteen windfalls pay between 5 and 1500 and are not owed. */
  lemma PositiveTable()
    ensures |PositiveWeeklyEvents| == 14 && AllEvents(PositiveWeeklyEvents, false, 5.0, 1500.0)
  {}

  /** The fourteen ordinary mishaps cost between 40 and 250. */
  lemma NegativeTable()
    ensures |NegativeWeeklyEvents| == 14 && AllEvents(NegativeWeeklyEvents, true, 40.0, 250.0)
  {}

  /** The five large mishaps cost between 400 and 800. */
  lemma SuperNegativeTable()
    ensures |SuperNegativeWeeklyEvents| == 5 && AllEvents(SuperNegativeWeeklyEvents, true, 400.0, 800.0)
  {}

  /** Every large mishap costs more than every ordinary one. */
  lemma SuperNegativeCostsMore(big: WeeklyEvent, small: WeeklyEvent)
    requires big in SuperNegativeWeeklyEvents && small in NegativeWeeklyEvents
    ensures big.amount > small.amount
  {
    SuperNegativeTable();
    NegativeTable();
  }

  /** The list a draw selects: below 0.60 the mishaps, below 0.99 the windfalls, otherwise the large mishaps. */
  function Band(randomValue: real): (events: seq<WeeklyEvent>)
    ensures events != []
  {
    if randomValue < 0.60 then NegativeWeeklyEvents
    else if randomValue < 0.99 then PositiveWeeklyEvents
    else SuperNegativeWeeklyEvents
  }

  /**
   * `randomElement()`: nothing from an empty list, otherwise the element the
   * draw `pick` lands on. Any natural number is a draw; it is taken modulo the
   * length, so every element can be drawn.
   */
  function RandomElement<T>(s: seq<T>, pick: nat): (r: Option<T>)
    ensures r.None? <==> s == []
    ensures r.Some? ==> r.value in s
  {
    if s == [] then None else Some(s[pick % |s|])
  }

  /** Every element of a list is drawn by some draw. */
  lemma RandomElementReaches<T>(s: seq<T>, k: nat)
    requires k < |s|
    ensures RandomElement(s, k) == Some(s[k])
  {}

  /** The weekly event for the band draw `randomValue` in [0, 1] and the element draw `pick`. */
  function GetRandomWeeklyEvent(randomValue: real, pick: nat): (e: Option<WeeklyEvent>)
    requires 0.0 <= randomValue <= 1.0
    ensures e.Some?
  {
    RandomElement(Band(randomValue), pick)
  }

  /** A draw from a non-empty list whose events all agree on the owed flag and lie in one range keeps both. */
  lemma DrawFromTable(events: seq<WeeklyEvent>, owed: bool, low: real, high: real, pick: nat)
    requires events != [] && AllEvents(events, owed, low, high)
    ensures RandomElement(events, pick).Some?
    ensures RandomElement(events, pick).value.isMoneyOwed == owed
    ensures low <= RandomElement(events, pick).value.amount <= high
  {
    var k := pick % |events|;
    assert RandomElement(events, pick).value == events[k];
  }

  /**
   * A draw always yields an event of the band it falls in: a mishap costing
   * 40 to 250 below 0.60, a windfall paying 5 to 1500 below 0.99, a large
   * mishap costing 400 to 800 from 0.99 on; so the event is owed exactly
   * outside [0.60, 0.99).
   */
  lemma WeeklyEventBands(randomValue: real, pick: nat)
    requires 0.0 <= randomValue <= 1.0
    ensures var e := GetRandomWeeklyEvent(randomValue, pick);
      && e.Some?
      && (e.value.isMoneyOwed <==> randomValue < 0.60 || 0.99 <= randomValue)
      && (randomValue < 0.60 ==> 40.0 <= e.value.amount <= 250.0)
      && (0.60 <= randomValue < 0.99 ==> 5.0 <= e.value.amount <= 1500.0)
      && (0.99 <= randomValue ==> 400.0 <= e.value.amount <= 800.0)
  {
    if randomValue < 0.60 {
      NegativeTable();
      DrawFromTable(NegativeWeeklyEvents, true, 40.0, 250.0, pick);
    } else if randomValue < 0.99 {
      PositiveTable();
      DrawFromTable(PositiveWeeklyEvents, false, 5.0, 1500.0, pick);
    } else {
      SuperNegativeTable();
      DrawFromTable(SuperNegativeWeeklyEvents, true, 400.0, 800.0, pick);
    }
  }

  /** The amount line: "You lost" or "You Gained" and the amount as the currency formatter writes it, or its plain text. */
  function AmountString(e: WeeklyEvent, formatted: Option<string>, plainAmount: string): string {
    if e.isMoneyOwed then "You lost " + formatted.GetOr(plainAmount)
    else "You Gained " + formatted.GetOr(plainAmount)
  }

  /** The line starts with "You lost " exactly for owed events and with "You Gained " otherwise. */
  lemma AmountStringPrefix(e: WeeklyEvent, formatted: Option<string>, plainAmount: string)
    ensures var line := AmountString(e, formatted, plainAmount);
      && (e.isMoneyOwed ==> line[..9] == "You lost ")
      && (!e.isMoneyOwed ==> line[..11] == "You Gained ")
      && (line[4] == 'l' <==> e.isMoneyOwed)
  {}
}
