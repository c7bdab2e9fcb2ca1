/**
 The alert evaluator: page first, commit the transition only once a channel took the page. Deliveries and
 state writes may fail at every tick. Metric values and thresholds are reals.
 */
module Alerts {
  import opened Outcome

  datatype Status = Ok | Firing | Resolved

  datatype AlertState = AlertState(status: Status, lastValue: real)

  datatype Rule = Rule(id: string, comparator: string, threshold: real)

  /** What the telemetry says this tick: nothing, or a value and whether it is an anomaly. */
  datatype Reading = Missing | Measured(value: real, anomalous: bool)

  /** A state write is committed, lost, or committed although the evaluator is told that it failed. */
  datatype Write = Committed | Lost | CommittedUnseen

  /** What one tick meets for one rule: the reading, each channel's answer to the page, the fate of the write. */
  datatype Input = Input(reading: Reading, channels: seq<bool>, write: Write)

  /** A delivered page: FIRING or RESOLVED, and whether the transition it announced was stored. */
  datatype Page = Page(firing: bool, written: bool)

  predicate IsAnomalyComparator(comparator: string) {
    comparator == "anomaly_high" || comparator == "anomaly_low"
  }

  predicate Breaches(value: real, comparator: string, threshold: real) {
    if comparator == "gte" then value >= threshold
    else if comparator == "lt" then value < threshold
    else if comparator == "lte" then value <= threshold
    else value > threshold
  }

  predicate IsBreached(rule: Rule, reading: Reading)
    requires reading.Measured?
  {
    if IsAnomalyComparator(rule.comparator) then reading.anomalous
    else Breaches(reading.value, rule.comparator, rule.threshold)
  }

  /** Nothing to send, or at least one channel accepted. */
  predicate IsDelivered(channels: seq<bool>) {
    channels == [] || exists i | 0 <= i < |channels| :: channels[i]
  }

  method Notify(channels: seq<bool>) returns (delivered: bool)
    ensures delivered == IsDelivered(channels)
  {
    if |channels| == 0 {
      return true;
    }
    for i := 0 to |channels|
      invariant forall j | 0 <= j < i :: !channels[j]
    {
      if channels[i] {
        return true;
      }
    }
    return false;
  }

  function StatusOf(state: Option<AlertState>): Status {
    if state.Some? then state.value.status else Status.Ok
  }

  /** What a tick does to a rule: its stored state, the page that was delivered, whether it counts as fired. */
  datatype Tick = Tick(state: Option<AlertState>, page: Option<Page>, fired: bool)

  /** The transition announced, if any: `Some(true)` for FIRING, `Some(false)` for RESOLVED. */
  function Transition(status: Status, breached: bool): Option<bool> {
    if breached && status != Firing then Some(true)
    else if !breached && status == Firing then Some(false)
    else None
  }

  function Evaluate(state: Option<AlertState>, rule: Rule, input: Input): (t: Tick)
    ensures state.Some? ==> t.state.Some?
    ensures t.fired ==> StatusOf(t.state) == Firing != StatusOf(state)
    ensures t.page.None? ==> StatusOf(t.state) == StatusOf(state)
    ensures t.page.Some? ==> (t.page.value.firing <==> StatusOf(state) != Firing)
    ensures t.page.Some? ==> (t.page.value.written <==> (StatusOf(t.state) == Firing <==> StatusOf(state) != Firing))
    ensures input.reading.Measured? && IsDelivered(input.channels) && !input.write.Lost? ==>
              (StatusOf(t.state) == Firing <==> IsBreached(rule, input.reading))
  {
    if input.reading.Missing? then Tick(state, None, false) else
    var value := input.reading.value;
    var status := StatusOf(state);
    var move := Transition(status, IsBreached(rule, input.reading));
    var delivered := move.Some? && IsDelivered(input.channels);
    var next := if delivered then (if move.value then Firing else Resolved) else status;
    Tick(if input.write.Lost? then state else Some(AlertState(next, value)),
         if delivered then Some(Page(move.value, !input.write.Lost?)) else None,
         delivered && move.value && input.write.Committed?)
  }

  // ----- what a tick does, in terms of the reading

  /** Is the reading on the alarm side of the rule? A comparator that is not listed means `gt`. */
  predicate Alarms(rule: Rule, reading: Reading)
    requires reading.Measured?
  {
    var c := rule.comparator;
    || (c in {"anomaly_high", "anomaly_low"} && reading.anomalous)
    || (c == "gte" && reading.value >= rule.threshold)
    || (c == "lt" && reading.value < rule.threshold)
    || (c == "lte" && reading.value <= rule.threshold)
    || (c !in {"anomaly_high", "anomaly_low", "gte", "lt", "lte"} && reading.value > rule.threshold)
  }

  /**
   * A tick pages exactly when the reading has crossed to the other side and a channel takes
   * the page; the state then follows the reading, provided the write holds; a rule counts
   * as fired when its FIRING page is sent and its write is seen to hold.
   */
  lemma {:induction false} TickFollowsReading(state: Option<AlertState>, rule: Rule, input: Input)
    requires input.reading.Measured?
    ensures var t := Evaluate(state, rule, input);
            var was, alarms := state.Some? && state.value.status == Firing, Alarms(rule, input.reading);
            var sent := input.channels == [] || true in input.channels;
            && (t.page.Some? <==> alarms != was && sent)
            && (t.page.Some? ==> t.page.value.firing == alarms && t.page.value.written == !input.write.Lost?)
            && (t.fired <==> alarms && !was && sent && input.write.Committed?)
            && (input.write.Lost? ==> t.state == state)
            && (!input.write.Lost? ==>
                  && t.state.Some? && t.state.value.lastValue == input.reading.value
                  && (t.state.value.status == Firing <==> if sent then alarms else was)
                  && (!alarms && was && sent ==> t.state.value.status == Resolved))
  {
    var sent := input.channels == [] || true in input.channels;
    assert IsDelivered(input.channels) <==> sent;
    assert IsBreached(rule, input.reading) <==> Alarms(rule, input.reading);
    hide IsDelivered, IsBreached, Alarms;
  }

  // ----- sweeps

  /** The stored states, and the pages each rule has delivered so far. */
  datatype World = World(states: map<string, AlertState>, pages: map<string, seq<Page>>)

  function StateOf(w: World, id: string): Option<AlertState> {
    if id in w.states then Some(w.states[id]) else None
  }

  function PagesOf(w: World, id: string): seq<Page> {
    if id in w.pages then w.pages[id] else []
  }

  function Settle(w: World, id: string, t: Tick): World {
    World(if t.state.Some? then w.states[id := t.state.value] else w.states,
          if t.page.Some? then w.pages[id := PagesOf(w, id) + [t.page.value]] else w.pages)
  }

  /** One sweep over the enabled rules; `inputs(id)` is what the sweep meets for a rule. */
  function Sweep(w: World, rules: seq<Rule>, inputs: string -> Input): World {
    if rules == [] then w else
    var n := |rules| - 1;
    var before := Sweep(w, rules[..n], inputs);
    Settle(before, rules[n].id, Evaluate(StateOf(before, rules[n].id), rules[n], inputs(rules[n].id)))
  }

  /** Rules are rows of a table with a primary key. */
  ghost predicate DistinctRules(rules: seq<Rule>) {
    forall i, j | 0 <= i < j < |rules| :: rules[i].id != rules[j].id
  }

  /** How many rules of the sweep went to firing and were seen to be stored. */
  function FiredCount(w: World, rules: seq<Rule>, inputs: string -> Input): nat {
    if rules == [] then 0 else
    var n := |rules| - 1;
    FiredCount(w, rules[..n], inputs) +
    if Evaluate(StateOf(w, rules[n].id), rules[n], inputs(rules[n].id)).fired then 1 else 0
  }

  lemma {:induction false} SweepLeavesOthers(w: World, rules: seq<Rule>, inputs: string -> Input, id: string)
    requires forall i | 0 <= i < |rules| :: rules[i].id != id
    ensures StateOf(Sweep(w, rules, inputs), id) == StateOf(w, id)
    ensures PagesOf(Sweep(w, rules, inputs), id) == PagesOf(w, id)
  {
    hide Evaluate;
    if rules != [] {
      SweepLeavesOthers(w, rules[..|rules| - 1], inputs, id);
    }
  }

  /** A sweep treats each of its rules as if it were alone. */
  lemma {:induction false} SweepIsPerRule(w: World, rules: seq<Rule>, inputs: string -> Input, i: nat)
    requires DistinctRules(rules) && i < |rules|
    ensures var id, after := rules[i].id, Sweep(w, rules, inputs);
            var t := Evaluate(StateOf(w, id), rules[i], inputs(id));
            && StateOf(after, id) == t.state
            && PagesOf(after, id) == PagesOf(w, id) + (if t.page.Some? then [t.page.value] else [])
  {
    var n, id := |rules| - 1, rules[i].id;
    var before := Sweep(w, rules[..n], inputs);
    if i == n {
      SweepLeavesOthers(w, rules[..n], inputs, id);
      var t := Evaluate(StateOf(before, id), rules[n], inputs(id));
      assert PagesOf(w, id) + [] == PagesOf(w, id);
      hide Evaluate, DistinctRules;
    } else {
      SweepIsPerRule(w, rules[..n], inputs, i);
      assert rules[n].id != id;
      hide Evaluate, DistinctRules;
    }
  }

  /** After a sweep a rule whose page could be sent and whose write held is firing exactly when its reading alarms. */
  lemma {:induction false} SweepFollowsReadings(w: World, rules: seq<Rule>, inputs: string -> Input, i: nat)
    requires DistinctRules(rules) && i < |rules| && inputs(rules[i].id).reading.Measured?
    requires inputs(rules[i].id).channels == [] || true in inputs(rules[i].id).channels
    requires !inputs(rules[i].id).write.Lost?
    ensures var after := Sweep(w, rules, inputs);
            rules[i].id in after.states
            && (after.states[rules[i].id].status == Firing <==> Alarms(rules[i], inputs(rules[i].id).reading))
  {
    SweepIsPerRule(w, rules, inputs, i);
    TickFollowsReading(StateOf(w, rules[i].id), rules[i], inputs(rules[i].id));
    hide Sweep, Evaluate, Alarms, DistinctRules;
  }

  class Evaluator {
    var states: map<string, AlertState>
    var pages: map<string, seq<Page>>

    ghost function View(): World
      reads this
    {
      World(states, pages)
    }

    /** One sweep: the states are read once at its start, as the rules are. */
    method EvaluateAllAlerts(rules: seq<Rule>, inputs: string -> Input) returns (evaluated: nat, fired: nat)
      requires DistinctRules(rules)
      modifies this
      ensures View() == Sweep(old(View()), rules, inputs)
      ensures evaluated == |rules|
      ensures fired == FiredCount(old(View()), rules, inputs)
    {
      var loaded := states;
      ghost var start := View();
      fired := 0;
      assert rules[..0] == [];
      for i := 0 to |rules|
        invariant View() == Sweep(start, rules[..i], inputs)
        invariant fired == FiredCount(start, rules[..i], inputs)
      {
        var rule := rules[i];
        assert rules[..i + 1][..i] == rules[..i];
        assert forall j | 0 <= j < i :: rules[..i][j].id != rule.id;
        SweepLeavesOthers(start, rules[..i], inputs, rule.id);
        assert StateOf(View(), rule.id) == StateOf(start, rule.id);
        hide Sweep, FiredCount, DistinctRules;
        ghost var t := Evaluate(StateOf(start, rule.id), rule, inputs(rule.id));
        assert View() == Sweep(start, rules[..i], inputs);
        NextSweep(start, rules, inputs, i);
        var counted := EvaluateRule(rule, inputs(rule.id), if rule.id in loaded then Some(loaded[rule.id]) else None);
        if counted {
          fired := fired + 1;
        }
      }
      assert rules[..|rules|] == rules;
      evaluated := |rules|;
    }

    /** One rule, given the state loaded for it. */
    method EvaluateRule(rule: Rule, input: Input, state: Option<AlertState>) returns (fired: bool)
      requires state == StateOf(View(), rule.id)
      modifies this
      ensures View() == Settle(old(View()), rule.id, Evaluate(state, rule, input))
      ensures fired == Evaluate(state, rule, input).fired
    {
      if input.reading.Missing? {
        return false;
      }
      var value := input.reading.value;
      var breached;
      if IsAnomalyComparator(rule.comparator) {
        breached := input.reading.anomalous;
      } else {
        breached := Breaches(value, rule.comparator, rule.threshold);
      }
      var status := StatusOf(state);
      fired := false;
      if breached && status != Firing {
        var delivered := Notify(input.channels);
        if delivered {
          Log(rule.id, Page(true, !input.write.Lost?));
        }
        Upsert(rule.id, if delivered then Firing else status, value, input.write);
        fired := delivered && input.write.Committed?;
      } else if !breached && status == Firing {
        var delivered := Notify(input.channels);
        if delivered {
          Log(rule.id, Page(false, !input.write.Lost?));
        }
        Upsert(rule.id, if delivered then Resolved else status, value, input.write);
      } else {
        Upsert(rule.id, status, value, input.write);
      }
    }

    method Upsert(id: string, status: Status, value: real, write: Write)
      modifies `states
      ensures states == if write.Lost? then old(states) else old(states)[id := AlertState(status, value)]
    {
      if !write.Lost? {
        states := states[id := AlertState(status, value)];
      }
    }

    method Log(id: string, page: Page)
      modifies `pages
      ensures pages == old(pages)[id := PagesOf(old(View()), id) + [page]]
    {
      var sent := if id in pages then pages[id] else [];
      pages := pages[id := sent + [page]];
    }
  }

  lemma {:induction false} NextSweep(w: World, rules: seq<Rule>, inputs: string -> Input, i: nat)
    requires i < |rules|
    ensures var before := Sweep(w, rules[..i], inputs);
            Sweep(w, rules[..i + 1], inputs) ==
            Settle(before, rules[i].id, Evaluate(StateOf(before, rules[i].id), rules[i], inputs(rules[i].id)))
    ensures FiredCount(w, rules[..i + 1], inputs) ==
            FiredCount(w, rules[..i], inputs) +
            if Evaluate(StateOf(w, rules[i].id), rules[i], inputs(rules[i].id)).fired then 1 else 0
  {
    assert rules[..i + 1][..i] == rules[..i];
    hide Evaluate;
  }

  // ----- runs

  /** One tick of the cron: the rules enabled then, as they are then, and what the sweep meets. */
  datatype Round = Round(rules: seq<Rule>, inputs: string -> Input)

  ghost predicate WellFormedRounds(rounds: seq<Round>) {
    forall i | 0 <= i < |rounds| :: DistinctRules(rounds[i].rules)
  }

  function Run(rounds: seq<Round>): World {
    if rounds == [] then World(map[], map[])
    else Sweep(Run(rounds[..|rounds| - 1]), rounds[|rounds| - 1].rules, rounds[|rounds| - 1].inputs)
  }

  /** Was the last page whose transition was stored a FIRING one? */
  predicate LastWrittenFires(pages: seq<Page>) {
    if pages == [] then false
    else if pages[|pages| - 1].written then pages[|pages| - 1].firing
    else LastWrittenFires(pages[..|pages| - 1])
  }

  /**
   * Pages alternate from a stored page to the next, and repeat after one whose
   * write was lost; the first is FIRING.
   */
  ghost predicate Alternates(pages: seq<Page>) {
    && (pages != [] ==> pages[0].firing)
    && forall i | 0 < i < |pages| :: (pages[i].firing != pages[i - 1].firing <==> pages[i - 1].written)
  }

  ghost predicate Coherent(w: World, id: string) {
    && Alternates(PagesOf(w, id))
    && (StatusOf(StateOf(w, id)) == Firing <==> LastWrittenFires(PagesOf(w, id)))
  }

  /** Under `Alternates` the page to come is FIRING exactly when the last stored page is not. */
  lemma {:induction false} NextPage(pages: seq<Page>, page: Page)
    requires Alternates(pages) && (page.firing <==> !LastWrittenFires(pages))
    ensures Alternates(pages + [page])
  {
    var n := |pages|;
    if n > 0 {
      LastDecides(pages);
    }
  }

  lemma {:induction false} LastDecides(pages: seq<Page>)
    requires Alternates(pages) && pages != []
    ensures LastWrittenFires(pages) <==> (pages[|pages| - 1].firing <==> pages[|pages| - 1].written)
  {
    var n := |pages| - 1;
    if !pages[n].written && n > 0 {
      LastDecides(pages[..n]);
    }
  }

  lemma {:induction false} TickIsCoherent(pages: seq<Page>, state: Option<AlertState>, rule: Rule, input: Input)
    requires Alternates(pages) && (StatusOf(state) == Firing <==> LastWrittenFires(pages))
    ensures var t := Evaluate(state, rule, input);
            var pages' := pages + (if t.page.Some? then [t.page.value] else []);
            Alternates(pages') && (StatusOf(t.state) == Firing <==> LastWrittenFires(pages'))
  {
    var t := Evaluate(state, rule, input);
    hide Evaluate;
    if t.page.Some? {
      NextPage(pages, t.page.value);
      assert (pages + [t.page.value])[..|pages|] == pages;
    } else {
      assert pages + [] == pages;
    }
  }

  /** In every run, for every rule, the status is `firing` exactly when the last stored page was FIRING. */
  lemma {:induction false} StatusFollowsPages(rounds: seq<Round>, id: string)
    requires WellFormedRounds(rounds)
    ensures Coherent(Run(rounds), id)
  {
    if rounds != [] {
      var n := |rounds| - 1;
      StatusFollowsPages(rounds[..n], id);
      var before, rules, inputs := Run(rounds[..n]), rounds[n].rules, rounds[n].inputs;
      hide Sweep, Evaluate, Alternates, LastWrittenFires, DistinctRules;
      if i :| 0 <= i < |rules| && rules[i].id == id {
        SweepIsPerRule(before, rules, inputs, i);
        TickIsCoherent(PagesOf(before, id), StateOf(before, id), rules[i], inputs(id));
      } else {
        SweepLeavesOthers(before, rules, inputs, id);
      }
    }
  }

  /**
   * In every run two delivered FIRING pages of a rule have a delivered RESOLVED
   * page between them, unless the write after the first of them was lost.
   */
  lemma {:induction false} FiringPagesAreSeparated(rounds: seq<Round>, id: string, i: nat, j: nat)
    requires WellFormedRounds(rounds)
    requires i < j < |PagesOf(Run(rounds), id)|
    requires PagesOf(Run(rounds), id)[i].firing && PagesOf(Run(rounds), id)[j].firing
    ensures var pages := PagesOf(Run(rounds), id);
            !pages[i].written || exists k :: i < k < j && !pages[k].firing
  {
    StatusFollowsPages(rounds, id);
    var pages := PagesOf(Run(rounds), id);
    if pages[i].written {
      assert pages[i + 1].firing != pages[i].firing;
      assert i < i + 1 < j && !pages[i + 1].firing;
    }
  }
}
