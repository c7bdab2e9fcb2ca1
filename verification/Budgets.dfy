/**
 Cost budgets: once per evaluation, page the highest step of the monthly budget that the spend has reached
 and that was not announced yet; reset when the spend is below the lowest step. Money and ratios are reals.
 */
module Budgets {
  import opened Outcome
  import Alerts

  // ----- thresholds

  /** The stored thresholds: no array at all, or an array whose entries may be no numbers. */
  type RawThresholds = Option<seq<Option<real>>>

  const DEFAULT_STEPS: seq<real> := [0.5, 0.8, 1.0]

  ghost predicate Ascending(s: seq<real>) {
    forall i, j | 0 <= i < j < |s| :: s[i] <= s[j]
  }

  /** The positive numbers of an array. */
  function Positive(raw: seq<Option<real>>): seq<real> {
    if raw == [] then []
    else (if raw[0].Some? && raw[0].value > 0.0 then [raw[0].value] else []) + Positive(raw[1..])
  }

  function Insert(x: real, s: seq<real>): seq<real> {
    if s == [] || x <= s[0] then [x] + s else [s[0]] + Insert(x, s[1..])
  }

  function Sort(s: seq<real>): seq<real> {
    if s == [] then [] else Insert(s[0], Sort(s[1..]))
  }

  function ParseThresholds(raw: RawThresholds): seq<real> {
    if raw.None? || Positive(raw.value) == [] then DEFAULT_STEPS else Sort(Positive(raw.value))
  }

  lemma {:induction false} InsertMeans(x: real, s: seq<real>)
    requires Ascending(s)
    ensures Ascending(Insert(x, s))
    ensures forall y :: y in Insert(x, s) <==> y == x || y in s
  {
    if s != [] && x > s[0] {
      InsertMeans(x, s[1..]);
      assert s == [s[0]] + s[1..];
      var r := Insert(x, s[1..]);
      forall i | 0 <= i < |r| ensures s[0] <= r[i] {
        assert r[i] in r;
        assert r[i] == x || r[i] in s[1..];
      }
    }
  }

  lemma {:induction false} SortMeans(s: seq<real>)
    ensures Ascending(Sort(s))
    ensures forall y :: y in Sort(s) <==> y in s
  {
    if s != [] {
      SortMeans(s[1..]);
      InsertMeans(s[0], Sort(s[1..]));
      assert s == [s[0]] + s[1..];
      hide Insert, Ascending;
    }
  }

  lemma {:induction false} PositiveMeans(raw: seq<Option<real>>)
    ensures forall y :: y in Positive(raw) <==> y > 0.0 && Some(y) in raw
  {
    if raw != [] {
      PositiveMeans(raw[1..]);
      assert raw == [raw[0]] + raw[1..];
    }
  }

  /** The steps are never empty, ascending and positive: the positive numbers stored, or the defaults. */
  lemma {:induction false} ThresholdsMean(raw: RawThresholds)
    ensures var steps := ParseThresholds(raw);
            && steps != [] && Ascending(steps) && (forall s | s in steps :: s > 0.0)
            && (raw.Some? && (exists y :: y > 0.0 && Some(y) in raw.value) ==>
                  forall y :: y in steps <==> y > 0.0 && Some(y) in raw.value)
            && (raw.None? || !(exists y :: y > 0.0 && Some(y) in raw.value) ==> steps == [0.5, 0.8, 1.0])
  {
    if raw.Some? {
      PositiveMeans(raw.value);
      SortMeans(Positive(raw.value));
      if Positive(raw.value) != [] {
        assert Positive(raw.value)[0] in Sort(Positive(raw.value));
      }
    }
  }

  // ----- one tick

  datatype Budget = Budget(monthlyUsd: real, thresholds: RawThresholds, notified: real)

  /** What a tick meets: the month's spend if it could be read, each channel's answer, the fate of the write. */
  datatype Input = Input(spent: Option<real>, channels: seq<bool>, write: Alerts.Write)

  datatype Page = Page(step: real, ratio: real, written: bool)

  datatype Tick = Tick(budget: Budget, page: Option<Page>, reset: bool, counted: bool)

  predicate Live(b: Budget, input: Input) {
    b.monthlyUsd > 0.0 && input.spent.Some?
  }

  function Ratio(b: Budget, input: Input): real
    requires Live(b, input)
  {
    input.spent.value / b.monthlyUsd
  }

  function Crossed(steps: seq<real>, ratio: real, notified: real): seq<real> {
    if steps == [] then []
    else (if ratio >= steps[0] && steps[0] > notified then [steps[0]] else []) + Crossed(steps[1..], ratio, notified)
  }

  function Max(s: seq<real>): real
    requires s != []
  {
    if |s| == 1 then s[0] else
    var m := Max(s[1..]);
    if s[0] >= m then s[0] else m
  }

  predicate StartsCycle(b: Budget, ratio: real) {
    var steps := ParseThresholds(b.thresholds);
    steps != [] && ratio < steps[0] && b.notified > 0.0
  }

  function Evaluate(b: Budget, input: Input): Tick {
    if !Live(b, input) then Tick(b, None, false, false) else
    var ratio := Ratio(b, input);
    var stored := !input.write.Lost?;
    if StartsCycle(b, ratio) then Tick(if stored then b.(notified := 0.0) else b, None, stored, false) else
    var crossed := Crossed(ParseThresholds(b.thresholds), ratio, b.notified);
    if crossed == [] || !Alerts.IsDelivered(input.channels) then Tick(b, None, false, false) else
    var step := Max(crossed);
    Tick(if stored then b.(notified := step) else b, Some(Page(step, ratio, stored)), false, input.write.Committed?)
  }

  lemma {:induction false} CrossedMeans(steps: seq<real>, ratio: real, notified: real)
    ensures forall s :: s in Crossed(steps, ratio, notified) <==> s in steps && notified < s <= ratio
  {
    if steps != [] {
      CrossedMeans(steps[1..], ratio, notified);
      assert steps == [steps[0]] + steps[1..];
    }
  }

  lemma {:induction false} MaxMeans(s: seq<real>)
    requires s != []
    ensures Max(s) in s && forall x | x in s :: x <= Max(s)
  {
    if |s| > 1 {
      MaxMeans(s[1..]);
      assert s == [s[0]] + s[1..];
    }
  }

  /** A step above the marker that the ratio has reached. */
  ghost predicate Due(b: Budget, ratio: real, s: real) {
    s in ParseThresholds(b.thresholds) && b.notified < s <= ratio
  }

  /**
   * What one tick does. It pages exactly when a step is due, the tick does not
   * start a cycle and a channel takes the page; the page names the highest due
   * step; once it is stored no step is due any more at that ratio.
   */
  lemma {:induction false} TickMeans(b: Budget, input: Input)
    requires Live(b, input)
    ensures var ratio, t := Ratio(b, input), Evaluate(b, input);
            && (t.page.Some? <==> !StartsCycle(b, ratio) && Alerts.IsDelivered(input.channels) && exists s :: Due(b, ratio, s))
            && (t.reset <==> StartsCycle(b, ratio) && !input.write.Lost?)
            && (t.page.Some? ==> Due(b, ratio, t.page.value.step) && t.page.value.ratio == ratio
                                 && forall s :: Due(b, ratio, s) ==> s <= t.page.value.step)
            && (t.page.Some? && t.page.value.written ==> forall s :: !Due(t.budget, ratio, s))
            && (t.page.Some? ==> (t.page.value.written <==> !input.write.Lost?))
            && t.budget == b.(notified := if t.reset then 0.0
                                          else if t.page.Some? && t.page.value.written then t.page.value.step else b.notified)
  {
    var ratio := Ratio(b, input);
    var crossed := Crossed(ParseThresholds(b.thresholds), ratio, b.notified);
    CrossedMeans(ParseThresholds(b.thresholds), ratio, b.notified);
    if crossed != [] {
      MaxMeans(crossed);
      assert Due(b, ratio, Max(crossed));
    }
    assert forall s :: s in crossed <==> Due(b, ratio, s);
    assert crossed == [] <==> !exists s :: Due(b, ratio, s) by {
      if exists s :: Due(b, ratio, s) {
        var s :| Due(b, ratio, s);
        assert s in crossed;
      }
    }
    hide Crossed, Max, ParseThresholds, Ratio;
  }

  // ----- the evaluator

  class BudgetStore {
    var budgets: seq<Budget>

    /** One evaluation of every budget; `inputs[i]` is what it meets for the i-th. */
    method EvaluateBudgets(inputs: seq<Input>) returns (evaluated: nat, notified: nat)
      requires |inputs| == |budgets|
      modifies this
      ensures |budgets| == old(|budgets|) == evaluated
      ensures forall i | 0 <= i < |budgets| :: budgets[i] == Evaluate(old(budgets[i]), inputs[i]).budget
      ensures notified == |set i | 0 <= i < old(|budgets|) && Evaluate(old(budgets[i]), inputs[i]).counted|
    {
      evaluated := |budgets|;
      notified := 0;
      ghost var counted: set<int> := {};
      for i := 0 to |budgets|
        invariant |budgets| == old(|budgets|)
        invariant forall j | 0 <= j < i :: budgets[j] == Evaluate(old(budgets[j]), inputs[j]).budget
        invariant forall j | i <= j < |budgets| :: budgets[j] == old(budgets[j])
        invariant counted == set j | 0 <= j < i && Evaluate(old(budgets[j]), inputs[j]).counted
        invariant notified == |counted|
      {
        hide Evaluate;
        var seen := EvaluateAt(i, inputs[i]);
        if seen {
          counted := counted + {i};
          notified := notified + 1;
        }
      }
    }

    method EvaluateAt(i: nat, input: Input) returns (counted: bool)
      requires i < |budgets|
      modifies this
      ensures budgets == old(budgets)[i := Evaluate(old(budgets[i]), input).budget]
      ensures counted == Evaluate(old(budgets[i]), input).counted
    {
      var b := budgets[i];
      counted := false;
      if b.monthlyUsd <= 0.0 || input.spent.None? {
        return;
      }
      ThresholdsMean(b.thresholds);
      var ratio := input.spent.value / b.monthlyUsd;
      var steps := ParseThresholds(b.thresholds);
      hide ParseThresholds;
      if ratio < steps[0] && b.notified > 0.0 {
        Write(i, 0.0, input.write);
        return;
      }
      var crossed := Crossed(steps, ratio, b.notified);
      if |crossed| == 0 {
        return;
      }
      var step := Max(crossed);
      var delivered := Alerts.Notify(input.channels);
      if !delivered {
        return;
      }
      Write(i, step, input.write);
      counted := input.write.Committed?;
    }

    method Write(i: nat, notified: real, write: Alerts.Write)
      requires i < |budgets|
      modifies this
      ensures budgets == if write.Lost? then old(budgets) else old(budgets)[i := old(budgets[i]).(notified := notified)]
    {
      if !write.Lost? {
        budgets := budgets[i := budgets[i].(notified := notified)];
      }
    }
  }

  // ----- runs

  /** A tick of the cron, or a change of the budget, which resets the marker. */
  datatype Action = Ticked(input: Input) | Changed(monthlyUsd: real, thresholds: RawThresholds)

  /** A budget, and the pages delivered since its cycle began. */
  datatype Account = Account(budget: Budget, cycle: seq<Page>)

  function Act(a: Account, action: Action): Account {
    match action
    case Changed(monthlyUsd, thresholds) => Account(Budget(monthlyUsd, thresholds, 0.0), [])
    case Ticked(input) =>
      var t := Evaluate(a.budget, input);
      Account(t.budget, if t.reset then [] else a.cycle + (if t.page.Some? then [t.page.value] else []))
  }

  function Run(monthlyUsd: real, thresholds: RawThresholds, actions: seq<Action>): Account {
    if actions == [] then Account(Budget(monthlyUsd, thresholds, 0.0), [])
    else Act(Run(monthlyUsd, thresholds, actions[..|actions| - 1]), actions[|actions| - 1])
  }

  /** The last step of a cycle that was stored, 0 if none. */
  function LastStored(cycle: seq<Page>): real {
    if cycle == [] then 0.0
    else if cycle[|cycle| - 1].written then cycle[|cycle| - 1].step
    else LastStored(cycle[..|cycle| - 1])
  }

  /** Every page announces a step its ratio had reached, above every step stored before it in the cycle. */
  ghost predicate Climbs(cycle: seq<Page>) {
    && (forall i | 0 <= i < |cycle| :: 0.0 < cycle[i].step <= cycle[i].ratio)
    && (forall i, j | 0 <= i < j < |cycle| && cycle[i].written :: cycle[i].step < cycle[j].step)
  }

  ghost predicate Sound(a: Account) {
    Climbs(a.cycle) && a.budget.notified == LastStored(a.cycle)
  }

  lemma {:induction false} StoredIsHighest(cycle: seq<Page>)
    requires Climbs(cycle)
    ensures LastStored(cycle) >= 0.0
    ensures forall i | 0 <= i < |cycle| && cycle[i].written :: cycle[i].step <= LastStored(cycle)
  {
    if cycle != [] && !cycle[|cycle| - 1].written {
      StoredIsHighest(cycle[..|cycle| - 1]);
    }
  }

  lemma {:induction false} NextPageClimbs(cycle: seq<Page>, page: Page)
    requires Climbs(cycle) && LastStored(cycle) < page.step <= page.ratio
    ensures Climbs(cycle + [page])
    ensures LastStored(cycle + [page]) == if page.written then page.step else LastStored(cycle)
  {
    StoredIsHighest(cycle);
    assert (cycle + [page])[..|cycle|] == cycle;
  }

  lemma {:induction false} ActIsSound(a: Account, action: Action)
    requires Sound(a)
    ensures Sound(Act(a, action))
  {
    assert a.cycle + [] == a.cycle;
    if action.Ticked? && Live(a.budget, action.input) {
      TickMeans(a.budget, action.input);
      var t := Evaluate(a.budget, action.input);
      hide Evaluate, ParseThresholds, Ratio, Climbs, LastStored;
      if t.page.Some? {
        NextPageClimbs(a.cycle, t.page.value);
      } else if t.reset {
        EmptyClimbs();
      }
    }
  }

  lemma {:induction false} EmptyClimbs()
    ensures Climbs([]) && LastStored([]) == 0.0
  {
  }

  /**
   * In every run, within a cycle the stored steps strictly increase, each was
   * reached at its tick, and the marker is the last of them.
   */
  lemma {:induction false} CyclesClimb(monthlyUsd: real, thresholds: RawThresholds, actions: seq<Action>)
    ensures Sound(Run(monthlyUsd, thresholds, actions))
  {
    if actions != [] {
      CyclesClimb(monthlyUsd, thresholds, actions[..|actions| - 1]);
      ActIsSound(Run(monthlyUsd, thresholds, actions[..|actions| - 1]), actions[|actions| - 1]);
    }
  }

  /** The ticks of a budget one after another. */
  function Ticks(b: Budget, inputs: seq<Input>): Budget
    decreases |inputs|
  {
    if inputs == [] then b else Ticks(Evaluate(b, inputs[0]).budget, inputs[1..])
  }

  /** A tick changes the marker or sends something only in a new cycle or for a due step. */
  lemma {:induction false} QuietTick(b: Budget, input: Input)
    requires Live(b, input)
    ensures (forall s :: !Due(b, Ratio(b, input), s)) && !StartsCycle(b, Ratio(b, input)) ==>
              Evaluate(b, input) == Tick(b, None, false, false)
  {
    TickMeans(b, input);
  }

  /**
   * A new month is noticed only by a spend below the lowest step. When the first
   * reading is already above it, nothing of the new month is announced as long
   * as the spend stays within what the old month had announced.
   */
  lemma {:induction false} NewMonthCanBeMissed(b: Budget, inputs: seq<Input>)
    requires forall i | 0 <= i < |inputs| ::
               Live(b, inputs[i]) && ParseThresholds(b.thresholds) != []
               && ParseThresholds(b.thresholds)[0] <= Ratio(b, inputs[i]) <= b.notified
    ensures Ticks(b, inputs) == b
    ensures forall i | 0 <= i < |inputs| :: Evaluate(b, inputs[i]).page.None?
  {
    if inputs != [] {
      QuietTick(b, inputs[0]);
      assert forall i | 0 <= i < |inputs[1..]| :: inputs[1..][i] == inputs[i + 1];
      NewMonthCanBeMissed(b, inputs[1..]);
      hide Evaluate, ParseThresholds;
    }
  }

  /** Once every step is announced, a reading reopens the cycle exactly when it is below the lowest step and the write holds. */
  lemma {:induction false} ReopensExactlyBelow(b: Budget, input: Input)
    requires Live(b, input) && b.notified > 0.0
    requires forall s | s in ParseThresholds(b.thresholds) :: s <= b.notified
    ensures var t := Evaluate(b, input);
            && t.page.None?
            && (t.budget.notified == 0.0 <==> Ratio(b, input) < ParseThresholds(b.thresholds)[0] && !input.write.Lost?)
            && (t.budget.notified != 0.0 ==> t.budget == b)
  {
    ThresholdsMean(b.thresholds);
    TickMeans(b, input);
  }

  /** A reading below the lowest step whose write holds. */
  predicate Reopens(b: Budget, input: Input) {
    Live(b, input) && ParseThresholds(b.thresholds) != [] && Ratio(b, input) < ParseThresholds(b.thresholds)[0] && !input.write.Lost?
  }

  /** Does the marker return to 0 at some point during the ticks? */
  ghost predicate Returns(b: Budget, inputs: seq<Input>) {
    exists n :: 0 <= n <= |inputs| && Ticks(b, inputs[..n]).notified == 0.0
  }

  ghost predicate SomeReopens(b: Budget, inputs: seq<Input>) {
    exists i :: 0 <= i < |inputs| && Reopens(b, inputs[i])
  }

  /** A tick keeps the amount and the steps, and takes a marker above 0 to 0 exactly when it reopens the cycle. */
  lemma {:induction false} MarkerStays(b: Budget, input: Input)
    requires b.notified > 0.0
    ensures var b' := Evaluate(b, input).budget;
            && b'.monthlyUsd == b.monthlyUsd && b'.thresholds == b.thresholds && b'.notified >= 0.0
            && (b'.notified == 0.0 <==> Reopens(b, input))
  {
    ThresholdsMean(b.thresholds);
    if Live(b, input) {
      TickMeans(b, input);
    }
    hide Crossed, Max, ParseThresholds, Ratio;
  }

  lemma {:induction false} ReturnsFirst(b: Budget, inputs: seq<Input>)
    requires inputs != [] && b.notified > 0.0
    ensures Returns(b, inputs) <==> Returns(Evaluate(b, inputs[0]).budget, inputs[1..])
  {
    hide Evaluate;
    var b' := Evaluate(b, inputs[0]).budget;
    if n :| 0 <= n <= |inputs| && Ticks(b, inputs[..n]).notified == 0.0 {
      assert n > 0 && inputs[..n][1..] == inputs[1..][..n - 1];
      assert Ticks(b', inputs[1..][..n - 1]).notified == 0.0;
    }
    if n :| 0 <= n <= |inputs[1..]| && Ticks(b', inputs[1..][..n]).notified == 0.0 {
      assert inputs[..n + 1][1..] == inputs[1..][..n];
      assert Ticks(b, inputs[..n + 1]).notified == 0.0;
    }
  }

  lemma {:induction false} SomeReopensFirst(b: Budget, b': Budget, inputs: seq<Input>)
    requires inputs != [] && b'.monthlyUsd == b.monthlyUsd && b'.thresholds == b.thresholds
    ensures SomeReopens(b, inputs) <==> Reopens(b, inputs[0]) || SomeReopens(b', inputs[1..])
  {
    hide ParseThresholds;
    assert forall input :: Reopens(b, input) <==> Reopens(b', input);
    hide Reopens;
    assert forall i | 0 <= i < |inputs[1..]| :: inputs[1..][i] == inputs[i + 1];
    if i :| 0 <= i < |inputs| && Reopens(b, inputs[i]) {
      if i > 0 {
        assert Reopens(b', inputs[1..][i - 1]);
      }
    }
  }

  /**
   * Over any ticks a marker above 0 returns to 0 exactly when some tick reads
   * a spend below the lowest step and its write holds: a new month by itself
   * does not bring it back.
   */
  lemma {:induction false} MarkerReturnsExactlyBelow(b: Budget, inputs: seq<Input>)
    requires b.notified > 0.0
    ensures Returns(b, inputs) <==> SomeReopens(b, inputs)
    decreases |inputs|
  {
    if inputs != [] {
      var b' := Evaluate(b, inputs[0]).budget;
      MarkerStays(b, inputs[0]);
      ReturnsFirst(b, inputs);
      SomeReopensFirst(b, b', inputs);
      if b'.notified > 0.0 {
        MarkerReturnsExactlyBelow(b', inputs[1..]);
      } else {
        assert Ticks(b', inputs[1..][..0]).notified == 0.0;
      }
    }
  }

  /** Of 100 dollars, all announced last month, nothing is announced of a month first read at 60 that goes on to 90. */
  lemma {:induction false} MissedMonth(channels: seq<bool>, write: Alerts.Write)
    ensures var b := Budget(100.0, None, 1.0);
            var readings := [Input(Some(60.0), channels, write), Input(Some(90.0), channels, write)];
            && Ticks(b, readings) == b
            && Evaluate(b, readings[0]).page.None? && Evaluate(b, readings[1]).page.None?
            && Evaluate(b.(notified := 0.0), readings[1]).page.Some? == Alerts.IsDelivered(channels)
  {
    var b := Budget(100.0, None, 1.0);
    var readings := [Input(Some(60.0), channels, write), Input(Some(90.0), channels, write)];
    assert ParseThresholds(b.thresholds) == DEFAULT_STEPS;
    assert Ratio(b, readings[0]) == 0.6 && Ratio(b, readings[1]) == 0.9;
    hide ParseThresholds, Ratio, Evaluate;
    NewMonthCanBeMissed(b, readings);
    var reopened := b.(notified := 0.0);
    TickMeans(reopened, readings[1]);
    assert Ratio(reopened, readings[1]) == 0.9;
    assert Due(reopened, 0.9, DEFAULT_STEPS[1]);
  }
}
