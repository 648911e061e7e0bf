/** The budget pass of the validator. */
module BudgetReplay {
  // A two-pointer fold over decisions and cycles that replays what had been
  // settled before each decision.

  import opened Util

  datatype Amounts = Amounts(
    modelCalls: nat,
    inputTokens: nat,
    outputTokens: nat,
    canonicalTokenEquivalents: nat,
    latencyUs: nat,
    interventions: nat,
    schemaRepairs: nat)

  const ZERO := Amounts(0, 0, 0, 0, 0, 0, 0)

  datatype Limits = Limits(amounts: Amounts, maxCallLatencyUs: nat)

  datatype Snapshot = Snapshot(limits: Limits, reserved: Amounts, consumed: Amounts)

  datatype Decision = Decision(eventSequence: nat, budget: Snapshot)

  datatype Cycle = Cycle(boundaryEventSequence: nat, reservation: Amounts, settlement: Amounts)

  function Plus(a: Amounts, b: Amounts): Amounts {
    Amounts(a.modelCalls + b.modelCalls, a.inputTokens + b.inputTokens, a.outputTokens + b.outputTokens,
            a.canonicalTokenEquivalents + b.canonicalTokenEquivalents, a.latencyUs + b.latencyUs,
            a.interventions + b.interventions, a.schemaRepairs + b.schemaRepairs)
  }

  /** `_budget_limits`: one full reservation for every event. */
  function Scaled(a: Amounts, n: nat): Amounts {
    Amounts(a.modelCalls * n, a.inputTokens * n, a.outputTokens * n, a.canonicalTokenEquivalents * n, a.latencyUs * n,
            a.interventions * n, a.schemaRepairs * n)
  }

  function BudgetLimits(reservation: Amounts, events: nat, maxCallLatencyUs: nat): Limits {
    Limits(Scaled(reservation, events), maxCallLatencyUs)
  }

  predicate AtMost(a: Amounts, b: Amounts) {
    && a.modelCalls <= b.modelCalls && a.inputTokens <= b.inputTokens && a.outputTokens <= b.outputTokens
    && a.canonicalTokenEquivalents <= b.canonicalTokenEquivalents && a.latencyUs <= b.latencyUs
    && a.interventions <= b.interventions && a.schemaRepairs <= b.schemaRepairs
  }

  function SumField(values: seq<Amounts>, field: Amounts -> nat): nat {
    if |values| == 0 then 0 else SumField(values[..|values| - 1], field) + field(values[|values| - 1])
  }

  /** `_sum_budgets`: each field summed by itself. */
  function SumBudgets(values: seq<Amounts>): Amounts {
    Amounts(SumField(values, (a: Amounts) => a.modelCalls), SumField(values, (a: Amounts) => a.inputTokens),
            SumField(values, (a: Amounts) => a.outputTokens), SumField(values, (a: Amounts) => a.canonicalTokenEquivalents),
            SumField(values, (a: Amounts) => a.latencyUs), SumField(values, (a: Amounts) => a.interventions),
            SumField(values, (a: Amounts) => a.schemaRepairs))
  }

  lemma SumBudgetsSnoc(values: seq<Amounts>, a: Amounts)
    ensures SumBudgets(values + [a]) == Plus(SumBudgets(values), a)
  {
    assert (values + [a])[..|values|] == values;
  }

  /** Adding up two budgets at a time, as the replay does, is adding. */
  lemma SumOfTwo(a: Amounts, b: Amounts)
    ensures SumBudgets([a, b]) == Plus(a, b)
  {
    assert [a, b] == [a] + [b];
    SumBudgetsSnoc([a], b);
    assert [a] == [] + [a];
    SumBudgetsSnoc([], a);
  }

  function Settlements(cycles: seq<Cycle>): seq<Amounts> {
    seq(|cycles|, i requires 0 <= i < |cycles| => cycles[i].settlement)
  }

  /** The declarative meaning: the settlements of all cycles whose boundary lies before the event. */
  function SettledBefore(cycles: seq<Cycle>, event: nat): Amounts {
    if |cycles| == 0 then ZERO
    else
      var front, last := cycles[..|cycles| - 1], cycles[|cycles| - 1];
      if last.boundaryEventSequence < event then Plus(SettledBefore(front, event), last.settlement)
      else SettledBefore(front, event)
  }

  function SettlementAt(cycles: seq<Cycle>, boundary: nat): Amounts {
    if |cycles| == 0 then ZERO
    else
      var front, last := cycles[..|cycles| - 1], cycles[|cycles| - 1];
      if last.boundaryEventSequence == boundary then Plus(SettlementAt(front, boundary), last.settlement) else SettlementAt(front, boundary)
  }

  lemma PlusOrder(a: Amounts, b: Amounts, c: Amounts)
    ensures Plus(Plus(a, b), c) == Plus(Plus(a, c), b) && Plus(Plus(a, b), c) == Plus(a, Plus(b, c))
    ensures Plus(a, ZERO) == a
  {
  }

  /** Nothing is settled before the first event, and from one event to the next exactly what settles at it. */
  lemma {:induction false} SettledStep(cycles: seq<Cycle>, event: nat)
    ensures SettledBefore(cycles, 0) == ZERO
    ensures SettledBefore(cycles, event + 1) == Plus(SettledBefore(cycles, event), SettlementAt(cycles, event))
    decreases |cycles|
  {
    hide Plus;
    PlusOrder(ZERO, ZERO, ZERO);
    if |cycles| > 0 {
      var front, last := cycles[..|cycles| - 1], cycles[|cycles| - 1];
      SettledStep(front, event);
      PlusOrder(SettledBefore(front, event), SettlementAt(front, event), last.settlement);
    }
  }

  /** What settles at an event is the settlement of the one cycle there, if there is one. */
  lemma {:induction false} SettlementAtIs(cycles: seq<Cycle>, boundary: nat)
    requires Ascending(cycles)
    ensures forall c <- cycles | c.boundaryEventSequence == boundary :: SettlementAt(cycles, boundary) == c.settlement
    ensures (forall c <- cycles :: c.boundaryEventSequence != boundary) ==> SettlementAt(cycles, boundary) == ZERO
    decreases |cycles|
  {
    if |cycles| > 0 {
      var front, last := cycles[..|cycles| - 1], cycles[|cycles| - 1];
      assert forall i | 0 <= i < |front| :: front[i] == cycles[i];
      SettlementAtIs(front, boundary);
      assert last in cycles && forall c <- front :: c in cycles;
      assert forall c <- front :: c.boundaryEventSequence < last.boundaryEventSequence;
    }
  }

  ghost predicate Ascending(cycles: seq<Cycle>) {
    forall i, j | 0 <= i < j < |cycles| :: cycles[i].boundaryEventSequence < cycles[j].boundaryEventSequence
  }

  /** Decisions are numbered 1 to n, as their component requires. */
  ghost predicate NumberedDecisions(decisions: seq<Decision>) {
    forall k | 0 <= k < |decisions| :: decisions[k].eventSequence == k + 1
  }

  /** Past the boundary nothing more is settled before the event. */
  lemma {:induction false} SettledPrefix(cycles: seq<Cycle>, n: nat, event: nat)
    requires Ascending(cycles) && n <= |cycles|
    requires forall i | n <= i < |cycles| :: cycles[i].boundaryEventSequence >= event
    ensures SettledBefore(cycles, event) == SettledBefore(cycles[..n], event)
    decreases |cycles|
  {
    if n == |cycles| {
      WholeSlice(cycles);
    } else {
      var front := cycles[..|cycles| - 1];
      SettledPrefix(front, n, event);
      assert front[..n] == cycles[..n];
    }
  }

  /** When every boundary lies before the event, the event's sum is the plain sum. */
  lemma {:induction false} SettledAll(cycles: seq<Cycle>, event: nat)
    requires forall i | 0 <= i < |cycles| :: cycles[i].boundaryEventSequence < event
    ensures SettledBefore(cycles, event) == SumBudgets(Settlements(cycles))
    decreases |cycles|
  {
    if |cycles| > 0 {
      var front, last := cycles[..|cycles| - 1], cycles[|cycles| - 1];
      SettledAll(front, event);
      assert Settlements(cycles) == Settlements(front) + [last.settlement];
      SumBudgetsSnoc(Settlements(front), last.settlement);
    }
  }

  /** What the pass checks of one decision. */
  predicate BudgetMatches(decision: Decision, limits: Limits, settled: Amounts) {
    decision.budget == Snapshot(limits, ZERO, settled)
  }

  /** Boundaries equal to their sorted copy and without repeats, which is to say ascending. */
  method SortedDistinct(cycles: seq<Cycle>) returns (ok: bool)
    ensures ok <==> Ascending(cycles)
  {
    var i := 1;
    while i < |cycles|
      invariant |cycles| > 0 ==> 1 <= i <= |cycles|
      invariant forall a, b | 0 <= a < b < i && b < |cycles| :: cycles[a].boundaryEventSequence < cycles[b].boundaryEventSequence
    {
      if cycles[i].boundaryEventSequence <= cycles[i - 1].boundaryEventSequence {
        return false;
      }
      i := i + 1;
    }
    return true;
  }

  /**
   * The budget part of `_validate_decisions`: accepts exactly when the cycles
   * are in order and every decision's snapshot shows what had been settled
   * before it.
   */
  method ValidateDecisions(decisions: seq<Decision>, cycles: seq<Cycle>, limits: Limits) returns (ok: bool)
    requires NumberedDecisions(decisions)
    ensures ok <==>
      Ascending(cycles)
      && forall k | 0 <= k < |decisions| :: BudgetMatches(decisions[k], limits, SettledBefore(cycles, decisions[k].eventSequence))
  {
    ok := SortedDistinct(cycles);
    if !ok {
      return;
    }
    var settled := ZERO;
    var cycleIndex := 0;
    var k := 0;
    while k < |decisions|
      invariant k <= |decisions| && cycleIndex <= |cycles|
      invariant settled == SumBudgets(Settlements(cycles[..cycleIndex]))
      invariant forall i | 0 <= i < cycleIndex :: cycles[i].boundaryEventSequence < k
      invariant forall j | 0 <= j < k :: BudgetMatches(decisions[j], limits, SettledBefore(cycles, decisions[j].eventSequence))
    {
      var event := decisions[k].eventSequence;
      while cycleIndex < |cycles| && cycles[cycleIndex].boundaryEventSequence < event
        invariant cycleIndex <= |cycles|
        invariant settled == SumBudgets(Settlements(cycles[..cycleIndex]))
        invariant forall i | 0 <= i < cycleIndex :: cycles[i].boundaryEventSequence < event
      {
        AddCycle(cycles, cycleIndex, settled);
        settled := SumBudgets([settled, cycles[cycleIndex].settlement]);
        cycleIndex := cycleIndex + 1;
      }
      ReplayedIs(cycles, cycleIndex, event);
      if !BudgetMatches(decisions[k], limits, settled) {
        return false;
      }
      k := k + 1;
    }
    return true;
  }

  lemma AddCycle(cycles: seq<Cycle>, i: nat, settled: Amounts)
    requires i < |cycles| && settled == SumBudgets(Settlements(cycles[..i]))
    ensures SumBudgets([settled, cycles[i].settlement]) == SumBudgets(Settlements(cycles[..i + 1]))
  {
    hide SumBudgets;
    assert Settlements(cycles[..i + 1]) == Settlements(cycles[..i]) + [cycles[i].settlement];
    SumBudgetsSnoc(Settlements(cycles[..i]), cycles[i].settlement);
    SumOfTwo(settled, cycles[i].settlement);
  }

  /** The two pointers agree with the filter: the fold so far is the sum over all earlier boundaries. */
  lemma ReplayedIs(cycles: seq<Cycle>, n: nat, event: nat)
    requires Ascending(cycles) && n <= |cycles|
    requires forall i | 0 <= i < n :: cycles[i].boundaryEventSequence < event
    requires n < |cycles| ==> cycles[n].boundaryEventSequence >= event
    ensures SumBudgets(Settlements(cycles[..n])) == SettledBefore(cycles, event)
  {
    SettledPrefix(cycles, n, event);
    SettledAll(cycles[..n], event);
  }

  // ----- what acceptance means -----

  /**
   * The conditions the budget rests on: no settlement above its reservation,
   * one reservation for all cycles, boundaries among the events 1 to n.
   */
  ghost predicate Reserved(cycles: seq<Cycle>, reservation: Amounts, events: nat) {
    forall i | 0 <= i < |cycles| ::
      && AtMost(cycles[i].settlement, cycles[i].reservation) && cycles[i].reservation == reservation
      && 1 <= cycles[i].boundaryEventSequence <= events
  }

  lemma ScaledIs(c: Amounts, n: nat)
    ensures var l := Scaled(c, n);
            && l.modelCalls == n * c.modelCalls && l.inputTokens == n * c.inputTokens && l.outputTokens == n * c.outputTokens
            && l.canonicalTokenEquivalents == n * c.canonicalTokenEquivalents && l.latencyUs == n * c.latencyUs
            && l.interventions == n * c.interventions && l.schemaRepairs == n * c.schemaRepairs
  {
  }

  lemma ScaledStep(a: Amounts, n: nat)
    ensures Plus(Scaled(a, n), a) == Scaled(a, n + 1)
  {
  }

  lemma ScaledMonotone(a: Amounts, m: nat, n: nat)
    requires m <= n
    ensures AtMost(Scaled(a, m), Scaled(a, n))
    decreases n - m
  {
    if m < n {
      ScaledMonotone(a, m, n - 1);
      ScaledStep(a, n - 1);
    }
  }

  /** With ascending boundaries from 1, at most `event - 1` cycles lie before the event. */
  lemma {:induction false} SpentBefore(cycles: seq<Cycle>, reservation: Amounts, events: nat, event: nat)
    requires Ascending(cycles) && Reserved(cycles, reservation, events) && event >= 1
    ensures AtMost(SettledBefore(cycles, event), Scaled(reservation, event - 1))
    ensures |cycles| > 0 && cycles[|cycles| - 1].boundaryEventSequence < event ==>
      AtMost(SettledBefore(cycles, event), Scaled(reservation, cycles[|cycles| - 1].boundaryEventSequence))
    decreases |cycles|
  {
    if |cycles| > 0 {
      hide Scaled;
      var front, last := cycles[..|cycles| - 1], cycles[|cycles| - 1];
      if last.boundaryEventSequence < event {
        assert forall i | 0 <= i < |front| :: front[i] == cycles[i];
        SpentBefore(front, reservation, events, last.boundaryEventSequence);
        SameBefore(front, last.boundaryEventSequence, event);
        ScaledStep(reservation, last.boundaryEventSequence - 1);
        ScaledMonotone(reservation, last.boundaryEventSequence, event - 1);
      } else {
        SpentBefore(front, reservation, events, event);
      }
    }
  }

  lemma {:induction false} SameBefore(cycles: seq<Cycle>, a: nat, b: nat)
    requires a <= b && forall i | 0 <= i < |cycles| :: cycles[i].boundaryEventSequence < a
    ensures SettledBefore(cycles, a) == SettledBefore(cycles, b)
    decreases |cycles|
  {
    if |cycles| > 0 {
      SameBefore(cycles[..|cycles| - 1], a, b);
    }
  }

  /**
   * The spending bound: in an accepted artifact every decision still had room
   * for one full cycle reservation, and the final consumption is within limits.
   */
  lemma SpendingBound(decisions: seq<Decision>, cycles: seq<Cycle>, reservation: Amounts, maxLatency: nat, k: nat)
    requires NumberedDecisions(decisions) && Ascending(cycles) && Reserved(cycles, reservation, |decisions|)
    requires k < |decisions|
    requires BudgetMatches(decisions[k], BudgetLimits(reservation, |decisions|, maxLatency), SettledBefore(cycles, k + 1))
    ensures AtMost(Plus(decisions[k].budget.consumed, reservation), decisions[k].budget.limits.amounts)
    ensures AtMost(decisions[k].budget.consumed, Scaled(reservation, k))
  {
    hide Scaled, SettledBefore;
    SpentBefore(cycles, reservation, |decisions|, k + 1);
    ScaledStep(reservation, k);
    ScaledMonotone(reservation, k + 1, |decisions|);
  }

  predicate FieldsWithin(u: Amounts, c: Amounts, l: Amounts) {
    && u.modelCalls + c.modelCalls <= l.modelCalls && u.inputTokens + c.inputTokens <= l.inputTokens
    && u.outputTokens + c.outputTokens <= l.outputTokens
    && u.canonicalTokenEquivalents + c.canonicalTokenEquivalents <= l.canonicalTokenEquivalents
    && u.latencyUs + c.latencyUs <= l.latencyUs && u.interventions + c.interventions <= l.interventions
    && u.schemaRepairs + c.schemaRepairs <= l.schemaRepairs
  }

  /** The spending bound, budget by budget. */
  lemma AtMostFields(a: Amounts, b: Amounts)
    ensures AtMost(a, b) <==>
      && a.modelCalls <= b.modelCalls
      && a.inputTokens <= b.inputTokens
      && a.outputTokens <= b.outputTokens
      && a.canonicalTokenEquivalents <= b.canonicalTokenEquivalents
      && a.latencyUs <= b.latencyUs
      && a.interventions <= b.interventions
      && a.schemaRepairs <= b.schemaRepairs
  {
  }

  lemma FinalSpending(cycles: seq<Cycle>, reservation: Amounts, events: nat)
    requires Ascending(cycles) && Reserved(cycles, reservation, events)
    ensures AtMost(SumBudgets(Settlements(cycles)), Scaled(reservation, events))
  {
    hide Scaled, SumBudgets;
    SettledAll(cycles, events + 1);
    SpentBefore(cycles, reservation, events, events + 1);
  }

  // ----- the whole budget of an artifact -----

  datatype Artifact = Artifact(
    decisions: seq<Decision>,
    cycles: seq<Cycle>,
    cycleReservation: Amounts,
    runLimits: Limits,
    finalBudget: Snapshot)

  /** What other validators have established: numbered decisions, settlements within the one reservation. */
  ghost predicate WellFormed(a: Artifact) {
    NumberedDecisions(a.decisions) && Reserved(a.cycles, a.cycleReservation, |a.decisions|)
  }

  /**
   * The budget checks of `_validate_decisions` and `_validate_metrics_and_budget`
   * together.  An accepted artifact shows, at every decision, exactly what was
   * settled before it, with room for one more full reservation, and ends within
   * its limits.
   */
  method AcceptsBudget(a: Artifact, maxCallLatencyUs: nat) returns (ok: bool)
    requires WellFormed(a)
    ensures ok ==> forall k | 0 <= k < |a.decisions| ::
              && a.decisions[k].budget.consumed == SettledBefore(a.cycles, k + 1)
              && AtMost(Plus(a.decisions[k].budget.consumed, a.cycleReservation), a.runLimits.amounts)
    ensures ok ==> a.finalBudget.consumed == SumBudgets(Settlements(a.cycles))
    ensures ok ==> var n, l, c := |a.decisions|, a.runLimits.amounts, a.cycleReservation;
              && l.modelCalls == n * c.modelCalls && l.inputTokens == n * c.inputTokens && l.outputTokens == n * c.outputTokens
              && l.canonicalTokenEquivalents == n * c.canonicalTokenEquivalents && l.latencyUs == n * c.latencyUs
              && l.interventions == n * c.interventions && l.schemaRepairs == n * c.schemaRepairs
              && a.runLimits.maxCallLatencyUs == maxCallLatencyUs
    ensures ok ==> AtMost(a.finalBudget.consumed, a.runLimits.amounts)
    ensures ok ==> forall k | 0 <= k < |a.decisions| ::
              var u, c, l := a.decisions[k].budget.consumed, a.cycleReservation, a.runLimits.amounts;
              && u.modelCalls + c.modelCalls <= l.modelCalls && u.inputTokens + c.inputTokens <= l.inputTokens
              && u.outputTokens + c.outputTokens <= l.outputTokens
              && u.canonicalTokenEquivalents + c.canonicalTokenEquivalents <= l.canonicalTokenEquivalents
              && u.latencyUs + c.latencyUs <= l.latencyUs && u.interventions + c.interventions <= l.interventions
              && u.schemaRepairs + c.schemaRepairs <= l.schemaRepairs
    ensures ok <==>
      && Ascending(a.cycles)
      && (forall k | 0 <= k < |a.decisions| :: BudgetMatches(a.decisions[k], a.runLimits, SettledBefore(a.cycles, k + 1)))
      && a.runLimits == BudgetLimits(a.cycleReservation, |a.decisions|, maxCallLatencyUs)
      && a.finalBudget == Snapshot(a.runLimits, ZERO, SumBudgets(Settlements(a.cycles)))
  {
    hide Scaled, SumBudgets, SettledBefore, AtMost, Reserved;
    ok := ValidateDecisions(a.decisions, a.cycles, a.runLimits);
    if !ok {
      return;
    }
    var expectedLimits := BudgetLimits(a.cycleReservation, |a.decisions|, maxCallLatencyUs);
    var expectedConsumed := SumBudgets(Settlements(a.cycles));
    ok := a.runLimits == expectedLimits && a.finalBudget == Snapshot(expectedLimits, ZERO, expectedConsumed);
    if ok {
      ScaledIs(a.cycleReservation, |a.decisions|);
      forall k | 0 <= k < |a.decisions|
        ensures AtMost(Plus(a.decisions[k].budget.consumed, a.cycleReservation), a.runLimits.amounts)
      {
        SpendingBound(a.decisions, a.cycles, a.cycleReservation, maxCallLatencyUs, k);
      }
      forall k | 0 <= k < |a.decisions|
        ensures FieldsWithin(a.decisions[k].budget.consumed, a.cycleReservation, a.runLimits.amounts)
      {
        AtMostFields(Plus(a.decisions[k].budget.consumed, a.cycleReservation), a.runLimits.amounts);
      }
      FinalSpending(a.cycles, a.cycleReservation, |a.decisions|);
    }
  }
}
