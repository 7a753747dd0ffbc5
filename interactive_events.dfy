/**
 * Interactive events: the content records, the weight of an event for a
 * player's balances, and the weighted-roulette choice of one event among those
 * offered to the player's wealth class.
 */
module InteractiveEvents {
  import opened Wrappers
  import opened Models

  datatype ActionType = Purchase | Transfer | Dismiss

  datatype Item = Item(id: int, name: string, icon: string, price: real, value: real, isSellable: bool)

  datatype TransferInfo = TransferInfo(
    id: int,
    sourceAccountIcon: string,
    destinationAccountIcon: string,
    source: Account,
    destination: Account,
    minAmount: real,
    maxAmount: Option<real>)

  datatype Action = Action(
    id: int,
    title: string,
    kind: ActionType,
    amount: Option<real>,
    item: Option<Item>,
    transfer: Option<TransferInfo>,
    outcome: string)

  datatype Event = Event(id: int, name: string, description: string, actions: seq<Action>)

  /** A group of events offered to the listed wealth classes. */
  datatype WealthGroup = WealthGroup(id: int, wealthClasses: seq<WealthClass>, events: seq<Event>)

  /** Returned when no event has a positive weight. */
  const NoEvent: Event := Event(0, "No events found", "No events found", [])

  // ------------------------------------------------------------------ weight

  /** The price of a purchase action: the item's price, else the flat amount. */
  function PurchasePrice(a: Action): Option<real> {
    if a.item.Some? then Some(a.item.value.price) else a.amount
  }

  /** What one action adds to an event's weight. */
  function ActionDelta(a: Action, b: Balances): real {
    match a.kind
    case Transfer =>
      if a.transfer.None? then 0.0
      else
        var t := a.transfer.value;
        var src := b.Of(t.source);
        var dst := b.Of(t.destination);
        var canTransfer := src >= t.minAmount;
        var shouldTransfer := dst < UnderfundedThreshold(t.destination) && src > dst;
        (if canTransfer then 2.0 else -1.0) + (if shouldTransfer then 1.5 else -5.0)
    case Purchase =>
      var price := PurchasePrice(a);
      if price.Some? && b.spending >= price.value then
        (if b.spending >= price.value then 1.0 else -1.0)
      else -5.0
    case Dismiss => 0.5
  }

  /** The summed contributions of a sequence of actions. */
  function ActionsDelta(actions: seq<Action>, b: Balances): real {
    if actions == [] then 0.0
    else ActionsDelta(actions[..|actions| - 1], b) + ActionDelta(actions[|actions| - 1], b)
  }

  /** A transfer into spending whose minimum the spending balance covers. */
  predicate IsSpendingRescue(a: Action, b: Balances) {
    && a.kind == Transfer
    && a.transfer.Some?
    && a.transfer.value.destination == Spending
    && a.transfer.value.minAmount <= b.spending
  }

  predicate HasSpendingRescue(actions: seq<Action>, b: Balances) {
    exists i :: 0 <= i < |actions| && IsSpendingRescue(actions[i], b)
  }

  /**
   * The weight of an event: 1 plus the contributions of its actions, doubled
   * when spending is below 200 and some action can refill spending, and never
   * below 0.
   */
  function Weight(e: Event, b: Balances): (w: real)
    ensures w >= 0.0
  {
    var raw := 1.0 + ActionsDelta(e.actions, b);
    var adjusted := if b.spending < 200.0 && HasSpendingRescue(e.actions, b) then raw * 2.0 else raw;
    Max(adjusted, 0.0)
  }

  /**
   * The value of each kind of action. A transfer with a payload gets +2 or -1
   * for whether the source covers the minimum, plus +1.5 or -5 for whether the
   * destination is underfunded and poorer than the source; a purchase gets +1
   * when a price exists and spending covers it, else -5 (its -1 arm is never
   * taken); a dismiss gets +0.5.
   */
  lemma ActionDeltaCases(a: Action, b: Balances)
    ensures a.kind == Transfer && a.transfer.None? ==> ActionDelta(a, b) == 0.0
    ensures a.kind == Transfer && a.transfer.Some? ==>
      var t := a.transfer.value;
      var src := b.Of(t.source);
      var dst := b.Of(t.destination);
      ActionDelta(a, b) ==
        (if src >= t.minAmount then 2.0 else -1.0)
        + (if dst < UnderfundedThreshold(t.destination) && src > dst then 1.5 else -5.0)
    ensures a.kind == Purchase ==>
      && (ActionDelta(a, b) == 1.0 <==> PurchasePrice(a).Some? && b.spending >= PurchasePrice(a).value)
      && (ActionDelta(a, b) == 1.0 || ActionDelta(a, b) == -5.0)
    ensures a.kind == Dismiss ==> ActionDelta(a, b) == 0.5
  {}

  /** Each action contributes between -6 and +3.5. */
  lemma {:induction false} ActionsDeltaBounds(actions: seq<Action>, b: Balances)
    ensures -6.0 * |actions| as real <= ActionsDelta(actions, b) <= 3.5 * |actions| as real
  {
    if actions != [] {
      ActionsDeltaBounds(actions[..|actions| - 1], b);
      ActionDeltaCases(actions[|actions| - 1], b);
    }
  }

  /** A weight never exceeds twice 1 + 3.5 per action. */
  lemma WeightUpperBound(e: Event, b: Balances)
    ensures Weight(e, b) <= 2.0 * (1.0 + 3.5 * |e.actions| as real)
  {
    ActionsDeltaBounds(e.actions, b);
  }

  /** An event whose actions are all dismissals weighs 1 + 0.5 per action. */
  lemma {:induction false} DismissOnlyWeight(e: Event, b: Balances)
    requires forall i :: 0 <= i < |e.actions| ==> e.actions[i].kind == Dismiss
    ensures Weight(e, b) == 1.0 + 0.5 * |e.actions| as real
  {
    DismissOnlyDelta(e.actions, b);
  }

  lemma {:induction false} DismissOnlyDelta(actions: seq<Action>, b: Balances)
    requires forall i :: 0 <= i < |actions| ==> actions[i].kind == Dismiss
    ensures ActionsDelta(actions, b) == 0.5 * |actions| as real
    ensures !HasSpendingRescue(actions, b)
  {
    if actions != [] {
      DismissOnlyDelta(actions[..|actions| - 1], b);
    }
  }

  /** The weight of `e`, computed as the source does, one action at a time. */
  method CalculateRandomChanceWeight(e: Event, player: Player) returns (weight: real)
    ensures weight == Weight(e, player.Snapshot())
  {
    ghost var b := player.Snapshot();
    weight := 1.0;
    for i := 0 to |e.actions|
      invariant weight == 1.0 + ActionsDelta(e.actions[..i], b)
    {
      var action := e.actions[i];
      match action.kind {
        case Transfer =>
          if action.transfer.Some? {
            var transfer := action.transfer.value;
            var sourceBalance := player.Balance(transfer.source);
            var canTransfer := sourceBalance >= transfer.minAmount;
            weight := weight + (if canTransfer then 2.0 else -1.0);
            var destinationBalance := player.Balance(transfer.destination);
            var underfunded := destinationBalance < UnderfundedThreshold(transfer.destination);
            var shouldTransfer := underfunded && sourceBalance > destinationBalance;
            if shouldTransfer {
              weight := weight + 1.5;
            } else {
              weight := weight - 5.0;
            }
          }
        case Purchase =>
          var price := PurchasePrice(action);
          if price.Some? && player.spendingAccount >= price.value {
            weight := weight + (if player.spendingAccount >= price.value then 1.0 else -1.0);
          } else {
            weight := weight - 5.0;
          }
        case Dismiss =>
          weight := weight + 0.5;
      }
      assert e.actions[..i + 1][..i] == e.actions[..i];
    }
    assert e.actions[..|e.actions|] == e.actions;
    if player.spendingAccount < 200.0 {
      var hasTransfer := false;
      var j := 0;
      while j < |e.actions| && !hasTransfer
        invariant 0 <= j <= |e.actions|
        invariant hasTransfer ==> HasSpendingRescue(e.actions, b)
        invariant !hasTransfer ==> forall k :: 0 <= k < j ==> !IsSpendingRescue(e.actions[k], b)
      {
        var action := e.actions[j];
        if action.kind == Transfer && action.transfer.Some?
          && action.transfer.value.destination == Spending
          && action.transfer.value.minAmount <= player.spendingAccount
        {
          hasTransfer := true;
        }
        j := j + 1;
      }
      if hasTransfer {
        weight := weight * 2.0;
      }
    }
    weight := Max(weight, 0.0);
  }

  // --------------------------------------------------------------- selection

  /** An event paired with its weight. */
  datatype Weighted = Weighted(event: Event, weight: real)

  /** The groups offered to wealth class `c`, in source order. */
  function MatchedGroups(groups: seq<WealthGroup>, c: WealthClass): seq<WealthGroup> {
    if groups == [] then []
    else
      var last := groups[|groups| - 1];
      MatchedGroups(groups[..|groups| - 1], c) + (if c in last.wealthClasses then [last] else [])
  }

  /** Each event with its weight, in order. */
  function Scored(events: seq<Event>, b: Balances): seq<Weighted> {
    if events == [] then []
    else
      var last := events[|events| - 1];
      Scored(events[..|events| - 1], b) + [Weighted(last, Weight(last, b))]
  }

  /** The scored events of every group, group by group. */
  function Eligible(groups: seq<WealthGroup>, b: Balances): seq<Weighted> {
    if groups == [] then []
    else Eligible(groups[..|groups| - 1], b) + Scored(groups[|groups| - 1].events, b)
  }

  /** The entries of positive weight, in order. */
  function Positive(s: seq<Weighted>): seq<Weighted> {
    if s == [] then []
    else
      var last := s[|s| - 1];
      Positive(s[..|s| - 1]) + (if last.weight > 0.0 then [last] else [])
  }

  /** The sum of the weights, accumulated from the left. */
  function TotalWeight(s: seq<Weighted>): real {
    if s == [] then 0.0 else TotalWeight(s[..|s| - 1]) + s[|s| - 1].weight
  }

  /** The candidates for a player with balances `b`. */
  function Candidates(groups: seq<WealthGroup>, b: Balances): seq<Weighted> {
    Positive(Eligible(MatchedGroups(groups, WealthClassOf(b.spending)), b))
  }

  /** The running weight through index `j`: w0 + ... + wj. */
  function Through(s: seq<Weighted>, j: nat): real
    requires j < |s|
  {
    TotalWeight(s[..j + 1])
  }

  /** The first index at or after `i` whose running weight exceeds `r`. */
  function PickFrom(s: seq<Weighted>, r: real, i: nat): (k: Option<nat>)
    ensures k.Some? ==> i <= k.value < |s|
    decreases |s| - i
  {
    if i >= |s| then None
    else if r < Through(s, i) then Some(i)
    else PickFrom(s, r, i + 1)
  }

  /** The roulette over non-empty candidates, falling back to the first. */
  function Spin(cands: seq<Weighted>, r: real): Event
    requires cands != []
  {
    match PickFrom(cands, r, 0)
    case Some(k) => cands[k].event
    case None => cands[0].event
  }

  /**
   * The event a draw `u` in [0, 1) selects: the roulette runs over the draw
   * `u * total`, and the sentinel is returned when there is no candidate.
   */
  function Choose(cands: seq<Weighted>, u: real): Event {
    if cands == [] then NoEvent else Spin(cands, Draw(u, TotalWeight(cands)))
  }

  /** A uniform draw `u` in [0, 1) stretched over [0, total). */
  function Draw(u: real, total: real): real {
    u * total
  }

  /** The source's selection, with the random draw passed in as `u`. */
  method ReturnRandomInteractiveEvent(groups: seq<WealthGroup>, player: Player, u: real) returns (chosen: Event)
    requires 0.0 <= u < 1.0
    ensures chosen == Choose(Candidates(groups, player.Snapshot()), u)
  {
    ghost var b := player.Snapshot();
    var matched := MatchedGroups(groups, player.WealthClass());
    var eligible := ScoreGroups(matched, player);
    var filtered := Positive(eligible);
    assert filtered == Candidates(groups, b);
    if filtered == [] {
      return NoEvent;
    }
    chosen := SpinRoulette(filtered, Draw(u, TotalWeight(filtered)));
  }

  /** Every event of every matched group with its weight, by nested loops. */
  method ScoreGroups(matched: seq<WealthGroup>, player: Player) returns (eligible: seq<Weighted>)
    ensures eligible == Eligible(matched, player.Snapshot())
  {
    ghost var b := player.Snapshot();
    eligible := [];
    for g := 0 to |matched|
      invariant eligible == Eligible(matched[..g], b)
    {
      var events := matched[g].events;
      for k := 0 to |events|
        invariant eligible == Eligible(matched[..g], b) + Scored(events[..k], b)
      {
        var weight := CalculateRandomChanceWeight(events[k], player);
        assert events[..k + 1][..k] == events[..k];
        eligible := eligible + [Weighted(events[k], weight)];
      }
      assert events[..|events|] == events;
      assert matched[..g + 1][..g] == matched[..g];
    }
    assert matched[..|matched|] == matched;
  }

  /** The cumulative-weight loop: the first entry whose running total exceeds `random`. */
  method SpinRoulette(filtered: seq<Weighted>, random: real) returns (chosen: Event)
    requires filtered != []
    ensures chosen == Spin(filtered, random)
  {
    var cumulativeWeight := 0.0;
    for i := 0 to |filtered|
      invariant cumulativeWeight == TotalWeight(filtered[..i])
      invariant PickFrom(filtered, random, 0) == PickFrom(filtered, random, i)
    {
      cumulativeWeight := cumulativeWeight + filtered[i].weight;
      assert filtered[..i + 1][..i] == filtered[..i];
      assert cumulativeWeight == Through(filtered, i);
      if random < cumulativeWeight {
        return filtered[i].event;
      }
    }
    return filtered[0].event;
  }

  // ------------------------------------------------- properties of selection

  /** Running totals of non-negative weights never decrease. */
  lemma {:induction false} PrefixWeightMonotone(s: seq<Weighted>, i: nat, j: nat)
    requires forall k :: 0 <= k < |s| ==> s[k].weight >= 0.0
    requires i <= j <= |s|
    ensures TotalWeight(s[..i]) <= TotalWeight(s[..j])
  {
    if i < j {
      PrefixWeightMonotone(s, i, j - 1);
      assert s[..j][..j - 1] == s[..j - 1];
    }
  }

  /** What PickFrom returns: an index whose running total exceeds r, every earlier one not. */
  lemma {:induction false} PickFromSpec(s: seq<Weighted>, r: real, i: nat)
    ensures PickFrom(s, r, i).Some? ==>
      var k := PickFrom(s, r, i).value;
      r < Through(s, k) && forall j :: i <= j < k ==> Through(s, j) <= r
    ensures PickFrom(s, r, i).None? ==> forall j :: i <= j < |s| ==> Through(s, j) <= r
    decreases |s| - i
  {
    if i < |s| && Through(s, i) <= r {
      PickFromSpec(s, r, i + 1);
    }
  }

  /**
   * Roulette selection over non-negative weights: for a draw r in [0, total)
   * the pick is index k exactly when r lies in [w0 + ... + w(k-1), w0 + ... + wk),
   * an interval of width wk. The fallback is never needed.
   */
  lemma RouletteInterval(s: seq<Weighted>, r: real, k: nat)
    requires forall j :: 0 <= j < |s| ==> s[j].weight >= 0.0
    requires 0.0 <= r < TotalWeight(s)
    requires k < |s|
    ensures PickFrom(s, r, 0).Some?
    ensures PickFrom(s, r, 0) == Some(k) <==> TotalWeight(s[..k]) <= r < TotalWeight(s[..k + 1])
    ensures TotalWeight(s[..k + 1]) - TotalWeight(s[..k]) == s[k].weight
  {
    assert s[..k + 1][..k] == s[..k];
    PickFromSpec(s, r, 0);
    assert s[..|s| - 1 + 1] == s;
    assert Through(s, |s| - 1) == TotalWeight(s);
    PickedInterval(s, r);
    var p := PickFrom(s, r, 0).value;
    if TotalWeight(s[..k]) <= r < TotalWeight(s[..k + 1]) {
      IntervalUnique(s, r, k, p);
    }
  }

  /** The picked index's interval contains the draw. */
  lemma PickedInterval(s: seq<Weighted>, r: real)
    requires forall j :: 0 <= j < |s| ==> s[j].weight >= 0.0
    requires 0.0 <= r < TotalWeight(s)
    ensures PickFrom(s, r, 0).Some?
    ensures var k := PickFrom(s, r, 0).value; TotalWeight(s[..k]) <= r < TotalWeight(s[..k + 1])
  {
    PickFromSpec(s, r, 0);
    assert s[..|s| - 1 + 1] == s;
    assert Through(s, |s| - 1) == TotalWeight(s);
    var k := PickFrom(s, r, 0).value;
    if k == 0 {
      assert s[..0] == [];
    } else {
      assert Through(s, k - 1) <= r;
      assert s[..k - 1 + 1] == s[..k];
    }
  }

  /** The intervals of non-negative weights do not overlap. */
  lemma IntervalUnique(s: seq<Weighted>, r: real, k: nat, p: nat)
    requires forall j :: 0 <= j < |s| ==> s[j].weight >= 0.0
    requires k < |s| && p < |s|
    requires TotalWeight(s[..k]) <= r < TotalWeight(s[..k + 1])
    requires TotalWeight(s[..p]) <= r < TotalWeight(s[..p + 1])
    ensures p == k
  {
    if p < k {
      PrefixWeightMonotone(s, p + 1, k);
    } else if k < p {
      PrefixWeightMonotone(s, k + 1, p);
    }
  }

  lemma {:induction false} PositiveWeights(s: seq<Weighted>)
    ensures forall j :: 0 <= j < |Positive(s)| ==> Positive(s)[j].weight > 0.0
  {
    if s != [] {
      PositiveWeights(s[..|s| - 1]);
    }
  }

  lemma {:induction false} InPositive(s: seq<Weighted>, x: Weighted)
    ensures x in Positive(s) <==> x in s && x.weight > 0.0
  {
    if s != [] {
      InPositive(s[..|s| - 1], x);
      assert s == s[..|s| - 1] + [s[|s| - 1]];
    }
  }

  lemma {:induction false} InScored(events: seq<Event>, b: Balances, x: Weighted)
    ensures x in Scored(events, b) <==> x.event in events && x.weight == Weight(x.event, b)
  {
    if events != [] {
      InScored(events[..|events| - 1], b, x);
      assert events == events[..|events| - 1] + [events[|events| - 1]];
    }
  }

  lemma {:induction false} InEligible(groups: seq<WealthGroup>, b: Balances, x: Weighted)
    ensures x in Eligible(groups, b) <==>
      x.weight == Weight(x.event, b) && exists g :: g in groups && x.event in g.events
  {
    if groups != [] {
      var last := groups[|groups| - 1];
      InEligible(groups[..|groups| - 1], b, x);
      InScored(last.events, b, x);
      assert groups == groups[..|groups| - 1] + [last];
    }
  }

  lemma {:induction false} InMatched(groups: seq<WealthGroup>, c: WealthClass, g: WealthGroup)
    ensures g in MatchedGroups(groups, c) <==> g in groups && c in g.wealthClasses
  {
    if groups != [] {
      InMatched(groups[..|groups| - 1], c, g);
      assert groups == groups[..|groups| - 1] + [groups[|groups| - 1]];
    }
  }

  /**
   * An event is a candidate exactly when it belongs to a group offered to the
   * player's wealth class and its weight is positive.
   */
  lemma CandidatesExactly(groups: seq<WealthGroup>, b: Balances, x: Weighted)
    ensures x in Candidates(groups, b) <==>
      && x.weight == Weight(x.event, b)
      && x.weight > 0.0
      && exists g :: g in groups && WealthClassOf(b.spending) in g.wealthClasses && x.event in g.events
  {
    var c := WealthClassOf(b.spending);
    var matched := MatchedGroups(groups, c);
    InPositive(Eligible(matched, b), x);
    InEligible(matched, b, x);
    forall g
      ensures g in matched <==> g in groups && c in g.wealthClasses
    {
      InMatched(groups, c, g);
    }
  }

  /**
   * With no candidate the sentinel is returned; otherwise the chosen event is
   * a candidate of positive weight, picked by the roulette and not by the
   * fallback.
   */
  lemma ChooseSpec(cands: seq<Weighted>, u: real)
    requires 0.0 <= u < 1.0
    requires forall j :: 0 <= j < |cands| ==> cands[j].weight > 0.0
    ensures cands == [] ==> Choose(cands, u) == NoEvent
    ensures cands != [] ==>
      var k := PickFrom(cands, Draw(u, TotalWeight(cands)), 0);
      && k.Some?
      && Choose(cands, u) == cands[k.value].event
      && cands[k.value].weight > 0.0
  {
    if cands != [] {
      PositiveTotal(cands);
      DrawBelowTotal(u, TotalWeight(cands));
      PickedInterval(cands, Draw(u, TotalWeight(cands)));
    }
  }

  /** Every candidate has a positive weight. */
  lemma CandidatesPositive(groups: seq<WealthGroup>, b: Balances)
    ensures forall j :: 0 <= j < |Candidates(groups, b)| ==> Candidates(groups, b)[j].weight > 0.0
  {
    PositiveWeights(Eligible(MatchedGroups(groups, WealthClassOf(b.spending)), b));
  }

  /** A draw in [0, 1) scaled by a positive total lands in [0, total). */
  lemma DrawBelowTotal(u: real, total: real)
    requires 0.0 <= u < 1.0 && 0.0 < total
    ensures 0.0 <= Draw(u, total) < total
  {
    MulNonNegative(u, total);
    MulPositive(1.0 - u, total);
    assert (1.0 - u) * total == total - u * total;
  }

  lemma MulPositive(a: real, b: real)
    requires 0.0 < a && 0.0 < b
    ensures 0.0 < a * b
  {}

  lemma {:induction false} PositiveTotal(s: seq<Weighted>)
    requires s != []
    requires forall j :: 0 <= j < |s| ==> s[j].weight > 0.0
    ensures TotalWeight(s) > 0.0
  {
    if |s| > 1 {
      PositiveTotal(s[..|s| - 1]);
    }
  }

  /** A single candidate is chosen whatever the draw. */
  lemma SingleCandidate(s: seq<Weighted>, r: real)
    requires |s| == 1 && s[0].weight > 0.0
    requires 0.0 <= r < s[0].weight
    ensures PickFrom(s, r, 0) == Some(0)
  {
    assert s[..1] == s;
    assert s[..0] == [];
    assert TotalWeight(s) == TotalWeight(s[..0]) + s[0].weight;
  }
}
