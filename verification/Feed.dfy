/** How a run is shown: the feed's lifecycle status and amount
    (src/api/margin_calls.py), and the warehouse's margin-call row
    (src/warehouse/live_load.py), against the policy's own reading of the state. */
module Feed {
  import opened Wrappers
  import opened MarginRun

  datatype Status =
    | Evaluating | NoBreach | BelowMateriality | AwaitingFirst | AwaitingManager | AwaitingResponse
    | RejectedCall | DisputedCall | SlaWasMet | WasEscalated

  function LifecycleStatus(v: Values): Status {
    if v.escalated then WasEscalated
    else if v.sla == Some(Met) then SlaWasMet
    else if v.sla == Some(Missed) then WasEscalated
    else if v.sentAt.Some? then AwaitingResponse
    else if v.approval == Some(Rejected) then RejectedCall
    else if v.approval == Some(Disputed) then DisputedCall
    else if v.tier == Some(Elite) && (v.approval == Some(Approved) || v.approval == Some(Adjusted))
            && v.managerDecision == None then AwaitingManager
    else if v.breach.Some? then
      if v.breach.value.breached && v.materiality == Some(BelowMta) then BelowMateriality
      else if v.breach.value.breached then AwaitingFirst
      else NoBreach
    else Evaluating
  }

  /** The feed's own computation of the amount, on the checkpoint's values. */
  function FeedAmount(v: Values): Option<real> {
    if v.breach.None? then None
    else if v.approval == Some(Adjusted) && v.adjusted.Some? then v.adjusted
    else Some(v.breach.value.callAmount)
  }

  /** The amount a feed row shows: none for a breach the materiality gate held. */
  function SummaryAmount(v: Values): Option<real> {
    if LifecycleStatus(v) == BelowMateriality then None else FeedAmount(v)
  }

  /** The warehouse row's decisive columns; None when no row is emitted. */
  datatype CallRow = CallRow(
    amount: Option<real>, approval: Option<Decision>, notifiedAt: Option<int>, sla: Option<SlaOutcome>, status: Status)

  function MarginCallRow(v: Values): Option<CallRow> {
    if v.breach.None? || !v.breach.value.breached || v.materiality == Some(BelowMta) then None
    else Some(CallRow(FeedAmount(v), v.approval, v.sentAt, v.sla, LifecycleStatus(v)))
  }

  /** The status that names an open-call stage; every other status names no open call. */
  function StageNamed(s: Status): Option<Stage> {
    match s
    case AwaitingFirst => Some(AwaitingApproval)
    case AwaitingManager => Some(AwaitingManagerApproval)
    case AwaitingResponse => Some(AwaitingSlaResponse)
    case _ => None
  }

  /** The policy and the feed name the same stage at every resting place of every
      reachable run, with one exception: a run whose notice step raised, which the
      policy reads as waiting for a manager and the feed as waiting for an approver. */
  lemma StageMatchesStatusUnlessSendRaised(r: Run)
    requires RunOk(r)
    ensures OpenStage(r.values) == StageNamed(LifecycleStatus(r.values)) <==> r.place != Raised(SendNotification)
  {
    if r.values.approval.Some? {
      assert SignedFits(r);
    }
  }

  function GateStage(n: Node): Stage {
    match n
    case AwaitApproval => AwaitingApproval
    case AwaitManagerApproval => AwaitingManagerApproval
    case _ => AwaitingSlaResponse
  }

  /** The stage is also the gate the run is paused at, so what the feed offers can be
      acted on; and a run that has ended is never shown as an open call. */
  lemma StageIsPendingGate(r: Run)
    requires RunOk(r)
    ensures r.place.Paused? ==> OpenStage(r.values) == Some(GateStage(r.place.node))
    ensures r.place == Ended ==> OpenStage(r.values) == None
    ensures r.place.Raised? ==> (OpenStage(r.values).Some? <==>
      (IsEvaluation(r.place.node) && Called(r.values))
      || r.place.node == AwaitApproval || r.place.node == AwaitManagerApproval || r.place.node == SendNotification)
  {
    if r.values.approval.Some? {
      assert SignedFits(r);
    }
  }

  /** A call that a later trigger re-evaluated away before anyone signed it. */
  predicate Withdrawn(r: Run) {
    && r.values.approval == None && EverRaised(r)
    && (r.place == Ended || (r.place.Raised? && IsEvaluation(r.place.node) && !Called(r.values)))
  }

  /** The warehouse emits a row exactly for the runs that raised a call which was not
      withdrawn; the row quotes the figure the run itself uses. */
  lemma RowExactlyForStandingCalls(r: Run)
    requires RunOk(r)
    ensures MarginCallRow(r.values).Some? <==> EverRaised(r) && !Withdrawn(r)
    ensures MarginCallRow(r.values).Some? ==>
      && MarginCallRow(r.values).value.amount == Some(EffectiveAmount(r.values))
      && SummaryAmount(r.values) == Some(EffectiveAmount(r.values))
  {
    if r.values.approval.Some? {
      assert SignedFits(r);
    }
  }

  /** Withdrawal is real: any unsigned open call, re-evaluated by any trigger in a world
      that holds enough collateral, has raised a call and has no row. */
  lemma WithdrawnCallHasNoRow(r: Run, trigger: Trigger) returns (w: World)
    requires RunOk(r) && r.place == Paused(AwaitApproval, [])
    ensures var r' := Reevaluate(r, trigger, r.values.updatedBy + [trigger.eventId], w);
      RunOk(r') && EverRaised(r') && MarginCallRow(r'.values) == None && Withdrawn(r')
  {
    w := SomeWorld(1.0);
    var updated := r.values.updatedBy + [trigger.eventId];
    assert |updated| > 0;
    PausedIsOpen(r);
    ReevaluateOkExactlyWhenUnsigned(r, trigger, updated, w);
    ReevaluatedRunMeaning(r, trigger, updated, w);
    SignedStaysSigned(r.values.(trigger := Some(trigger), updatedBy := updated), r.log, w);
    hide Reevaluate, Smooth, BreachIn;
  }
}
