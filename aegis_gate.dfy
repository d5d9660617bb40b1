/** The cost gate (aegis/nodes/gate.py): auto-approve, cancel, or stop for a human. */
module Gate {
  import opened Wrappers
  import opened State

  const GatePhase: string := "budget_gate"

  /** Whether the estimated cost may be approved without asking anyone. */
  function CheckAutoApprove(s: AegisState): (ok: bool)
    ensures ok <==>
      && s.costEstimate.Some?
      && s.costEstimate.value.estimatedCostUsd <= s.budgetPolicy.maxBudgetUsd
      && s.costEstimate.value.estimatedCostUsd <= s.budgetPolicy.softThresholdUsd
  {
    if s.costEstimate.None? then false
    else if s.costEstimate.value.estimatedCostUsd > s.budgetPolicy.maxBudgetUsd then false
    else if s.costEstimate.value.estimatedCostUsd <= s.budgetPolicy.softThresholdUsd then true
    else false
  }

  /** The gate node: one budget_gate event is appended, and `human_decision` is set to
      cancel or approve when the gate decides on its own. */
  function BudgetGateNode(s: AegisState): (r: AegisState)
    // only the log and the decision can change, and the log grows by one budget_gate event
    ensures r.(events := s.events, humanDecision := s.humanDecision) == s
    ensures |r.events| == |s.events| + 1 && r.events[..|s.events|] == s.events
    ensures r.events[|s.events|].phase == GatePhase
    // no estimate: a failed event without data, nothing decided
    ensures s.costEstimate.None? ==>
      r.events[|s.events|] == RunEvent(GatePhase, Failed, None) && r.humanDecision == s.humanDecision
    // with an estimate, the event records the inputs of the decision
    ensures s.costEstimate.Some? ==>
      r.events[|s.events|].data == Some(GateData(CheckAutoApprove(s),
        s.costEstimate.value.estimatedCostUsd, s.budgetPolicy.softThresholdUsd, s.budgetPolicy.maxBudgetUsd))
    // over the hard limit: cancelled, whatever the soft threshold says
    ensures s.costEstimate.Some? && s.costEstimate.value.estimatedCostUsd > s.budgetPolicy.maxBudgetUsd ==>
      r.events[|s.events|].status == Failed && r.humanDecision == Some(Cancel)
    // auto-approved: completed and approved
    ensures CheckAutoApprove(s) ==>
      r.events[|s.events|].status == Completed && r.humanDecision == Some(Approve)
    // between the thresholds: interrupted for a human, the prior decision kept
    ensures (s.costEstimate.Some? && s.costEstimate.value.estimatedCostUsd <= s.budgetPolicy.maxBudgetUsd
             && !CheckAutoApprove(s)) ==>
      r.events[|s.events|].status == Interrupted && r.humanDecision == s.humanDecision
  {
    if s.costEstimate.None? then
      AppendEvent(s, RunEvent(GatePhase, Failed, None))
    else
      var cost := s.costEstimate.value.estimatedCostUsd;
      var autoApprove := CheckAutoApprove(s);
      var data := GateData(autoApprove, cost, s.budgetPolicy.softThresholdUsd, s.budgetPolicy.maxBudgetUsd);
      var (status, decision) :=
        if cost > s.budgetPolicy.maxBudgetUsd then (Failed, Some(Cancel))
        else if autoApprove then (Completed, Some(Approve))
        else (Interrupted, None);
      var r := AppendEvent(s, RunEvent(GatePhase, status, Some(data)));
      if decision.Some? then r.(humanDecision := decision) else r
  }

  /** The decision reads the cost, the hard limit and the soft threshold only:
      `allow_auto_approve` has no effect on the gate. */
  lemma {:induction false} GateIgnoresAllowAutoApprove(s: AegisState, allow: bool)
    ensures var t := s.(budgetPolicy := s.budgetPolicy.(allowAutoApprove := allow));
      && CheckAutoApprove(t) == CheckAutoApprove(s)
      && BudgetGateNode(t).events == BudgetGateNode(s).events
      && BudgetGateNode(t).humanDecision == BudgetGateNode(s).humanDecision
  {
  }

  /** With the defaults (hard limit 5.00, soft threshold 2.00): 1.0 is approved,
      3.0 waits for a human and 6.0 is cancelled. */
  lemma DefaultPolicyOutcomes(s: AegisState, cost: real)
    requires s.budgetPolicy == DefaultBudgetPolicy && s.costEstimate.Some?
    requires s.costEstimate.value.estimatedCostUsd == cost
    ensures cost == 1.0 ==> BudgetGateNode(s).humanDecision == Some(Approve)
    ensures cost == 3.0 ==>
      BudgetGateNode(s).events[|s.events|].status == Interrupted && BudgetGateNode(s).humanDecision == s.humanDecision
    ensures cost == 6.0 ==> BudgetGateNode(s).humanDecision == Some(Cancel)
  {
  }
}
