/** One margin-call run: the state a checkpoint holds, the graph's nodes and
    routes, and how an invocation moves the run from one resting place to the
    next (src/agents/orchestrator.py). Sends and posts are events in `log`. */
module MarginRun {
  import opened Wrappers
  import opened Calc

  // ----- the persisted state ------------------------------------------------------

  datatype Tier = Standard | Elite

  datatype Decision = Approved | Rejected | Adjusted | Disputed

  /** What the approval endpoint accepts. */
  type FirstDecision = d: Decision | d != Disputed witness Approved

  datatype ManagerDecision = Ratified | Overturned

  datatype SlaOutcome = Met | Missed

  datatype Materiality = Material | BelowMta

  /** A delivery failure always carries a non-empty reason. */
  type Reason = s: string | s != "" witness "refused"

  /** `moves` is non-empty exactly for intraday price events. */
  datatype Trigger = Trigger(eventId: string, occurredAt: int, moves: seq<PriceMove>)

  /** Where a notice went: one version of a contact, or the default recipient. */
  datatype Routing = ToContact(id: int, version: string) | ToDefault

  datatype Values = Values(
    impact: Trigger,
    cp: string,
    vm: Option<real>,
    im: Option<real>,
    csa: Option<CsaTerms>,
    breach: Option<BreachResult>,
    tier: Option<Tier>,
    approval: Option<Decision>,
    adjusted: Option<real>,
    firstApprover: Option<string>,
    manager: Option<string>,
    managerDecision: Option<ManagerDecision>,
    messageId: Option<string>,
    routing: Option<Routing>,
    sentAt: Option<int>,
    sla: Option<SlaOutcome>,
    slaConfirmed: bool,
    escalated: bool,
    deliveryFailure: Option<Reason>,
    trigger: Option<Trigger>,
    eventImpact: Option<real>,
    materiality: Option<Materiality>,
    updatedBy: seq<string>)

  function Fresh(impact: Trigger, cp: string): Values {
    Values(impact, cp, None, None, None, None, None, None, None, None, None, None, None, None, None, None, false, false,
           None, None, None, None, [])
  }

  datatype Node =
    | ComputeExposure | FetchCsaTerms | EvaluateBreachNode | AwaitApproval | AwaitManagerApproval
    | SendNotification | AwaitSlaResponse | SendSlaMet | Escalate

  datatype SlaSignal = Responded | DeliveryFailed(reason: Reason) | Check

  /** Where a run rests: paused in a node's interrupt (with the signals that node
      has already been resumed with), ended, or stopped by a node that raised. */
  datatype Place = Paused(node: Node, signals: seq<SlaSignal>) | Ended | Raised(node: Node)

  datatype Event =
    | CallRaised(amount: real)
    | FirstSigned(decision: FirstDecision, who: string)
    | SecondRequested(amount: real)
    | SecondSigned(verdict: ManagerDecision, who: string)
    | NoticeAttempted(amount: real)
    | SlaConfirmed(amount: real)
    | IncidentOpened(amount: real)

  datatype Run = Run(values: Values, place: Place, log: seq<Event>)

  datatype Delivery = Sent(messageId: Option<string>) | Refused(reason: Reason)

  /** What an invocation reads from outside: market and book data, the CSA
      extraction, the client channel, the clock, and which nodes fail. */
  datatype World = World(
    positions: seq<Position>, prices: map<string, real>, prior: map<string, real>, vix: Option<real>,
    csa: Option<CsaTerms>, held: real, rating: Option<Rating>, tier: Option<Tier>,
    raises: set<Node>, recipient: Routing, delivery: Delivery, now: int, slaSeconds: nat)

  // ----- the evaluation nodes --------------------------------------------------------

  function CurrentTrigger(v: Values): Trigger {
    if v.trigger.Some? then v.trigger.value else v.impact
  }

  /** None when the node raises. */
  function ComputeExposureNode(v: Values, w: World): Option<Values> {
    if ComputeExposure in w.raises || w.vix.None? then None
    else
      var today, before := MtmOf(w.positions, w.prices), MtmOf(w.positions, w.prior);
      if today.Failure? || before.Failure? then None
      else
        var vm, im := VariationMargin(today.value, before.value), InitialMargin(today.value, w.vix.value);
        if vm.Failure? || im.Failure? then None
        else
          var moves := CurrentTrigger(v).moves;
          var impact := EventExposureImpact(w.positions, moves, w.vix.value);
          if moves != [] && impact.Failure? then None
          else
            Some(v.(vm := Some(vm.value), im := Some(im.value),
                    eventImpact := if moves == [] then None else Some(impact.value.exposureChange)))
  }

  function FetchCsaNode(v: Values, w: World): Option<Values> {
    if FetchCsaTerms in w.raises || w.csa.None? then None else Some(v.(csa := w.csa))
  }

  /** A price event is gated on its own impact, unless the call was already open. */
  function MaterialityOf(v: Values, mta: real): Option<Materiality> {
    if v.eventImpact.Some? && v.updatedBy == []
    then Some(if IsMaterial(v.eventImpact.value, mta) then Material else BelowMta)
    else None
  }

  function EvaluateNode(v: Values, w: World): Option<Values> {
    if EvaluateBreachNode in w.raises || v.vm.None? || v.im.None? || v.csa.None? then None
    else
      Some(v.(breach := Some(EvaluateBreach(v.vm.value + v.im.value, w.held, v.csa.value, w.rating)),
              tier := Some(if w.tier.Some? then w.tier.value else Standard),
              materiality := MaterialityOf(v, v.csa.value.mta)))
  }

  /** The latest evaluation raised a call: a breach the materiality gate did not hold. */
  predicate Called(v: Values) {
    v.breach.Some? && v.breach.value.breached && v.materiality != Some(BelowMta)
  }

  /** An invocation from the start of the graph, up to the first gate or the end. */
  function FromStart(v: Values, log: seq<Event>, w: World): Run {
    var priced := ComputeExposureNode(v, w);
    if priced.None? then Run(v, Raised(ComputeExposure), log)
    else
      var termed := FetchCsaNode(priced.value, w);
      if termed.None? then Run(priced.value, Raised(FetchCsaTerms), log)
      else
        var evaluated := EvaluateNode(termed.value, w);
        if evaluated.None? then Run(termed.value, Raised(EvaluateBreachNode), log)
        else AfterEvaluation(evaluated.value, log, w)
  }

  function AfterEvaluation(v: Values, log: seq<Event>, w: World): Run
    requires v.breach.Some?
  {
    if !Called(v) then Run(v, Ended, log)
    else
      var log' := log + [CallRaised(v.breach.value.callAmount)];
      if AwaitApproval in w.raises then Run(v, Raised(AwaitApproval), log') else Run(v, Paused(AwaitApproval, []), log')
  }

  /** start_run: a new thread, or one an earlier attempt left behind (its
      checkpointed values stay and the new input is merged over them). */
  function Start(previous: Option<Run>, trigger: Trigger, cp: string, w: World): Run {
    if previous.None? then FromStart(Fresh(trigger, cp), [], w)
    else FromStart(previous.value.values.(impact := trigger, cp := cp), previous.value.log, w)
  }

  /** reevaluate_run: the graph restarts on the call's own thread. */
  function Reevaluate(r: Run, trigger: Trigger, updatedBy: seq<string>, w: World): Run {
    FromStart(r.values.(trigger := Some(trigger), updatedBy := updatedBy), r.log, w)
  }

  // ----- the gates, the notice and the SLA --------------------------------------------

  function EffectiveAmount(v: Values): real
    requires v.breach.Some?
  {
    if v.approval == Some(Adjusted) && v.adjusted.Some? then v.adjusted.value else v.breach.value.callAmount
  }

  function Send(v: Values, log: seq<Event>, w: World): Run
    requires v.breach.Some?
  {
    var log' := log + [NoticeAttempted(EffectiveAmount(v))];
    if SendNotification in w.raises then Run(v, Raised(SendNotification), log')
    else
      var sent := v.(routing := Some(w.recipient), sentAt := Some(w.now));
      match w.delivery
      case Sent(id) => Run(sent.(messageId := id), Paused(AwaitSlaResponse, []), log')
      case Refused(reason) =>
        EscalateNow(sent.(messageId := None, deliveryFailure := Some(reason), sla := Some(Missed)), log', w)
  }

  function EscalateNow(v: Values, log: seq<Event>, w: World): Run
    requires v.breach.Some?
  {
    if Escalate in w.raises then Run(v, Raised(Escalate), log)
    else Run(v.(escalated := true), Ended, log + [IncidentOpened(EffectiveAmount(v))])
  }

  function ConfirmMet(v: Values, log: seq<Event>, w: World): Run
    requires v.breach.Some?
  {
    if SendSlaMet in w.raises then Run(v, Raised(SendSlaMet), log)
    else Run(v.(slaConfirmed := true), Ended, log + [SlaConfirmed(EffectiveAmount(v))])
  }

  /** Resuming the first gate. */
  function SignFirst(r: Run, d: FirstDecision, amount: Option<real>, who: string, w: World): Run
    requires r.values.breach.Some?
  {
    var v := r.values.(
      approval := Some(d), adjusted := if d == Adjusted then amount else None, firstApprover := Some(who));
    var log := r.log + [FirstSigned(d, who)];
    if d == Rejected then Run(v, Ended, log)
    else if v.tier == Some(Elite) then
      var place := if AwaitManagerApproval in w.raises then Raised(AwaitManagerApproval)
                   else Paused(AwaitManagerApproval, []);
      Run(v, place, log + [SecondRequested(EffectiveAmount(v))])
    else Send(v, log, w)
  }

  /** Resuming the second gate: the manager ratifies the first decision or overturns it. */
  function SignSecond(r: Run, d: ManagerDecision, who: string, w: World): Run
    requires r.values.breach.Some?
  {
    var v := r.values.(
      managerDecision := Some(d), manager := Some(who),
      approval := if d == Overturned then Some(Disputed) else r.values.approval);
    var log := r.log + [SecondSigned(d, who)];
    if d == Overturned then Run(v, Ended, log) else Send(v, log, w)
  }

  datatype SlaReply = Waiting | Resolved(outcome: SlaOutcome, failure: Option<Reason>)

  /** await_sla_response under replay: the node runs again from its top, the
      earlier signals are handed back in order, and each is judged at the time of
      this resume. */
  function Replay(signals: seq<SlaSignal>, now: int, deadline: int): SlaReply {
    if signals == [] then Waiting
    else match signals[0]
      case Responded => Resolved(Met, None)
      case DeliveryFailed(reason) => Resolved(Missed, Some(reason))
      case Check => if now >= deadline then Resolved(Missed, None) else Replay(signals[1..], now, deadline)
  }

  /** The node's loop: each pass takes the next signal the interrupt returns, and
      an interrupt with no signal left pauses the run. */
  method AwaitSla(signals: seq<SlaSignal>, now: int, deadline: int) returns (reply: SlaReply)
    ensures reply == Replay(signals, now, deadline)
  {
    var next := 0;
    while true
      invariant 0 <= next <= |signals|
      invariant Replay(signals, now, deadline) == Replay(signals[next..], now, deadline)
      decreases |signals| - next
    {
      if next == |signals| {
        return Waiting;
      }
      var signal := signals[next];
      assert signals[next..][0] == signal && signals[next..][1..] == signals[next + 1..];
      next := next + 1;
      if signal.Responded? {
        return Resolved(Met, None);
      }
      if signal.DeliveryFailed? {
        return Resolved(Missed, Some(signal.reason));
      }
      if now >= deadline {
        return Resolved(Missed, None);
      }
    }
  }

  function Deadline(v: Values, w: World): int
    requires v.sentAt.Some?
  {
    v.sentAt.value + w.slaSeconds
  }

  function SlaResume(r: Run, signal: SlaSignal, w: World): Run
    requires r.place.Paused? && r.values.breach.Some? && r.values.sentAt.Some?
  {
    var signals := r.place.signals + [signal];
    match Replay(signals, w.now, Deadline(r.values, w))
    case Waiting => r.(place := Paused(AwaitSlaResponse, signals))
    case Resolved(Met, _) => ConfirmMet(r.values.(sla := Some(Met)), r.log, w)
    case Resolved(Missed, failure) =>
      var why := if failure.Some? then failure else r.values.deliveryFailure;
      EscalateNow(r.values.(sla := Some(Missed), deliveryFailure := why), r.log, w)
  }

  // ----- how others read the state ------------------------------------------------------

  datatype Stage = AwaitingApproval | AwaitingManagerApproval | AwaitingSlaResponse

  /** open_call_stage: where an open call stands, None when the run is not an open call. */
  function OpenStage(v: Values): Option<Stage> {
    if v.breach.None? || !v.breach.value.breached then None
    else if v.materiality == Some(BelowMta) then None
    else if v.escalated || v.sla.Some? then None
    else if v.sentAt.Some? then Some(AwaitingSlaResponse)
    else if v.approval == Some(Rejected) || v.approval == Some(Disputed) then None
    else if v.approval == Some(Approved) || v.approval == Some(Adjusted) then Some(AwaitingManagerApproval)
    else Some(AwaitingApproval)
  }

  predicate Open(r: Run) {
    OpenStage(r.values).Some?
  }

  // ----- what every reachable run satisfies -------------------------------------------------

  predicate IsEvaluation(n: Node) {
    n == ComputeExposure || n == FetchCsaTerms || n == EvaluateBreachNode
  }

  predicate Signed(v: Values) {
    v.approval == Some(Approved) || v.approval == Some(Adjusted)
  }

  /** Everything a notice needs: the first signature, and for an elite counterparty
      the ratification of a different person. */
  predicate SignedOff(v: Values) {
    && Signed(v) && v.firstApprover.Some?
    && (if v.tier == Some(Elite)
        then v.managerDecision == Some(Ratified) && v.manager.Some? && v.manager != v.firstApprover
        else v.managerDecision == None && v.manager == None)
  }

  predicate NothingSent(v: Values) {
    && v.sentAt == None && v.routing == None && v.sla == None && v.messageId == None && v.deliveryFailure == None
    && !v.slaConfirmed && !v.escalated
  }

  predicate NothingSigned(v: Values) {
    && v.approval == None && v.adjusted == None && v.firstApprover == None
    && v.manager == None && v.managerDecision == None
  }

  predicate AllChecks(signals: seq<SlaSignal>) {
    forall i :: 0 <= i < |signals| ==> signals[i] == Check
  }

  predicate UnsignedFits(r: Run) {
    var v := r.values;
    && NothingSigned(v) && NothingSent(v)
    && match r.place
       case Paused(node, signals) => node == AwaitApproval && signals == [] && Called(v) && v.tier.Some?
       case Ended => v.breach.Some? && !Called(v) && v.tier.Some?
       case Raised(node) =>
         || (node == AwaitApproval && Called(v) && v.tier.Some?)
         || (IsEvaluation(node) && (v.breach.Some? ==> v.tier.Some?))
  }

  predicate SignedFits(r: Run)
    requires r.values.approval.Some?
  {
    var v := r.values;
    && Called(v) && v.tier.Some? && v.firstApprover.Some?
    && match v.approval.value
       case Rejected => r.place == Ended && NothingSent(v) && v.managerDecision == None && v.manager == None
       case Disputed =>
         && r.place == Ended && NothingSent(v) && v.tier == Some(Elite)
         && v.managerDecision == Some(Overturned) && v.manager.Some? && v.manager != v.firstApprover
       case _ =>
         if v.tier == Some(Elite) && v.managerDecision == None then
           && (r.place == Paused(AwaitManagerApproval, []) || r.place == Raised(AwaitManagerApproval))
           && v.manager == None && NothingSent(v)
         else SignedOff(v) && NoticeFits(r)
  }

  predicate NoticeFits(r: Run) {
    var v := r.values;
    match r.place
    case Paused(node, signals) =>
      && node == AwaitSlaResponse && AllChecks(signals) && v.sentAt.Some? && v.sla == None
      && v.deliveryFailure == None && !v.slaConfirmed && !v.escalated
    case Raised(node) =>
      || (node == SendNotification && NothingSent(v))
      || (node == SendSlaMet && v.sentAt.Some? && v.sla == Some(Met) && !v.slaConfirmed && !v.escalated)
      || (node == Escalate && v.sentAt.Some? && v.sla == Some(Missed) && !v.slaConfirmed && !v.escalated)
    case Ended =>
      && v.sentAt.Some? && (v.sla == Some(Met) || v.sla == Some(Missed))
      && v.slaConfirmed == (v.sla == Some(Met)) && v.escalated == (v.sla == Some(Missed))
  }

  /** The log after its leading call-raised events: the signed part of the run's life. */
  function Trail(log: seq<Event>): seq<Event> {
    if log != [] && log[0].CallRaised? then Trail(log[1..]) else log
  }

  predicate EverRaised(r: Run) {
    r.log != [] && r.log[0].CallRaised?
  }

  /** Exactly what a run signed with `approval` has put on record, in order. */
  function NoticeTrail(v: Values): seq<Event>
    requires v.breach.Some?
  {
    [NoticeAttempted(EffectiveAmount(v))]
    + (if v.slaConfirmed then [SlaConfirmed(EffectiveAmount(v))] else [])
    + (if v.escalated then [IncidentOpened(EffectiveAmount(v))] else [])
  }

  /** The signatures of a run whose first decision was to go ahead. */
  function Signatures(v: Values): seq<Event>
    requires v.breach.Some? && Signed(v) && v.firstApprover.Some? && (v.managerDecision.Some? ==> v.manager.Some?)
  {
    var first := FirstSigned(v.approval.value, v.firstApprover.value);
    if v.tier != Some(Elite) then [first]
    else if v.managerDecision == None then [first, SecondRequested(EffectiveAmount(v))]
    else [first, SecondRequested(EffectiveAmount(v)), SecondSigned(v.managerDecision.value, v.manager.value)]
  }

  function SignedTrail(v: Values): seq<Event>
    requires v.breach.Some? && Signed(v) && v.firstApprover.Some? && (v.managerDecision.Some? ==> v.manager.Some?)
  {
    if v.tier == Some(Elite) && v.managerDecision == None then Signatures(v) else Signatures(v) + NoticeTrail(v)
  }

  predicate TrailFits(v: Values, trail: seq<Event>)
    requires v.approval.Some? ==>
      v.breach.Some? && v.firstApprover.Some? && (v.managerDecision.Some? ==> v.manager.Some?)
  {
    if v.approval == None then trail == []
    else match v.approval.value
      case Rejected => trail == [FirstSigned(Rejected, v.firstApprover.value)]
      case Disputed =>
        && |trail| == 3 && v.manager.Some?
        && trail[0].FirstSigned? && trail[0].decision != Rejected && trail[0].who == v.firstApprover.value
        && trail[1].SecondRequested? && trail[2] == SecondSigned(Overturned, v.manager.value)
      case _ => trail == SignedTrail(v)
  }

  predicate RunOk(r: Run) {
    && (if r.values.approval == None then UnsignedFits(r) else SignedFits(r))
    && TrailFits(r.values, Trail(r.log))
    && (Called(r.values) || r.values.updatedBy != [] <==> EverRaised(r))
  }

  // ----- every step keeps it ------------------------------------------------------------

  lemma {:induction false} TrailAppend(log: seq<Event>, e: Event)
    ensures !e.CallRaised? ==> Trail(log + [e]) == Trail(log) + [e]
    ensures e.CallRaised? && Trail(log) == [] ==> Trail(log + [e]) == []
    ensures log != [] ==> (log + [e])[0] == log[0]
  {
    if log == [] {
      assert log + [e] == [e] && [e][1..] == [];
    } else {
      assert (log + [e])[1..] == log[1..] + [e];
      TrailAppend(log[1..], e);
    }
  }

  /** Nobody has signed on the thread, if there is one. */
  predicate Unsigned(previous: Option<Run>) {
    previous.Some? ==> previous.value.values.approval == None
  }

  /** A run may be started on the thread: nobody has signed there and no call is standing.
      Whatever an earlier attempt evaluated does not matter. */
  predicate Startable(previous: Option<Run>) {
    Unsigned(previous) && (previous.Some? ==> !Called(previous.value.values))
  }

  lemma NodesWriteTheirOwn(v: Values, w: World)
    ensures ComputeExposureNode(v, w).Some? ==>
      var n := ComputeExposureNode(v, w).value;
      n == v.(vm := n.vm, im := n.im, eventImpact := n.eventImpact) && n.vm.Some? && n.im.Some?
    ensures EvaluateNode(v, w).Some? ==>
      var n := EvaluateNode(v, w).value;
      n == v.(breach := n.breach, tier := n.tier, materiality := n.materiality) && n.breach.Some? && n.tier.Some?
  {
    hide MtmOf, EvaluateBreach, EventExposureImpact, InitialMargin, VariationMargin;
  }

  lemma AfterEvaluationOk(v: Values, log: seq<Event>, w: World)
    requires NothingSigned(v) && NothingSent(v) && Trail(log) == [] && v.breach.Some? && v.tier.Some?
    requires v.updatedBy != [] <==> log != []
    ensures RunOk(AfterEvaluation(v, log, w))
  {
    TrailAppend(log, CallRaised(v.breach.value.callAmount));
  }

  lemma FromStartOk(v: Values, log: seq<Event>, w: World)
    requires NothingSigned(v) && NothingSent(v) && Trail(log) == [] && (v.breach.Some? ==> v.tier.Some?)
    requires (v.updatedBy != [] <==> log != []) && (Called(v) ==> v.updatedBy != [])
    ensures RunOk(FromStart(v, log, w))
  {
    hide ComputeExposureNode, EvaluateNode;
    NodesWriteTheirOwn(v, w);
    var priced := ComputeExposureNode(v, w);
    if priced.Some? {
      var termed := FetchCsaNode(priced.value, w);
      if termed.Some? {
        NodesWriteTheirOwn(termed.value, w);
        var evaluated := EvaluateNode(termed.value, w);
        if evaluated.Some? {
          AfterEvaluationOk(evaluated.value, log, w);
        }
      }
    }
  }

  /** An unsigned run has nothing on record but calls raised. */
  lemma UnsignedRecord(r: Run)
    requires RunOk(r) && r.values.approval == None
    ensures NothingSigned(r.values) && NothingSent(r.values) && Trail(r.log) == []
    ensures r.values.breach.Some? ==> r.values.tier.Some?
    ensures r.log != [] <==> Called(r.values) || r.values.updatedBy != []
    ensures Open(r) <==> Called(r.values)
  {
  }

  /** Starting keeps the thread sound and unsigned, in every world. */
  lemma StartKeepsOk(previous: Option<Run>, trigger: Trigger, cp: string, w: World)
    requires Startable(previous) && (previous.Some? ==> RunOk(previous.value))
    ensures var r := Start(previous, trigger, cp, w);
      && RunOk(r) && r.values.cp == cp && r.values.approval == None && r.values.sentAt == None
      && (previous.None? ==> r.values.updatedBy == [])
  {
    hide RunOk, FromStart;
    if previous.None? {
      FromStartOk(Fresh(trigger, cp), [], w);
      SignedStaysSigned(Fresh(trigger, cp), [], w);
    } else {
      var v := previous.value.values.(impact := trigger, cp := cp);
      UnsignedRecord(previous.value);
      FromStartOk(v, previous.value.log, w);
      SignedStaysSigned(v, previous.value.log, w);
    }
  }

  /** Starting a sound run's thread again is sound in every world exactly when nobody has
      signed it and a call it raised, if one still stands, has been re-evaluated before.
      (A standing call is never started again by the policy, which finds it open.) */
  lemma StartOkExactlyWhen(r: Run, trigger: Trigger, cp: string)
    requires RunOk(r)
    ensures (forall w :: RunOk(Start(Some(r), trigger, cp, w))) <==>
      r.values.approval == None && (Called(r.values) ==> r.values.updatedBy != [])
  {
    hide RunOk, Start;
    if r.values.approval.Some? {
      var w := SomeWorld(1.0);
      RestartingSignedRunIsUnsound(r, trigger, cp, w);
    } else if Called(r.values) && r.values.updatedBy == [] {
      var w := SomeWorld(1.0);
      ForgottenCallIsUnsound(r, trigger, cp, w);
    } else {
      forall w ensures RunOk(Start(Some(r), trigger, cp, w)) {
        RestartOk(r, trigger, cp, w);
      }
    }
  }

  lemma RestartOk(r: Run, trigger: Trigger, cp: string, w: World)
    requires RunOk(r) && r.values.approval == None && (Called(r.values) ==> r.values.updatedBy != [])
    ensures RunOk(Start(Some(r), trigger, cp, w))
  {
    UnsignedRecord(r);
    hide RunOk, FromStart;
    FromStartOk(r.values.(impact := trigger, cp := cp), r.log, w);
  }

  /** A standing call started again in a world without a breach: the run has raised a call
      and neither stands for one nor says that a later trigger took it back. */
  lemma ForgottenCallIsUnsound(r: Run, trigger: Trigger, cp: string, w: World)
    requires RunOk(r) && r.values.approval == None && Called(r.values) && r.values.updatedBy == []
    requires Smooth(w, CurrentTrigger(r.values.(impact := trigger)).moves) && !BreachIn(w).breached
    ensures !RunOk(Start(Some(r), trigger, cp, w))
  {
    UnsignedRecord(r);
    var v := r.values.(impact := trigger, cp := cp);
    EvaluationMeaning(v, r.log, w);
    SignedStaysSigned(v, r.log, w);
    hide FromStart, Smooth, BreachIn, TrailFits, UnsignedFits;
  }

  /** Re-evaluating an open call keeps the run sound exactly when nobody has signed
      it yet: the policy's own guard. A signature given between reading the stage
      and re-evaluating leaves a run paused for a first approval it already has. */
  lemma ReevaluateOkExactlyWhenUnsigned(r: Run, trigger: Trigger, updatedBy: seq<string>, w: World)
    requires RunOk(r) && Open(r) && updatedBy != []
    ensures RunOk(Reevaluate(r, trigger, updatedBy, w)) <==> OpenStage(r.values) == Some(AwaitingApproval)
  {
    hide FromStart, TrailFits;
    var v := r.values.(trigger := Some(trigger), updatedBy := updatedBy);
    if r.values.approval == None {
      UnsignedRecord(r);
      FromStartOk(v, r.log, w);
    } else {
      SignedStaysSigned(v, r.log, w);
    }
  }

  lemma SignedStaysSigned(v: Values, log: seq<Event>, w: World)
    ensures var r := FromStart(v, log, w);
      && r.values.approval == v.approval && r.values.sentAt == v.sentAt && r.values.sla == v.sla
      && r.values.escalated == v.escalated && r.values.updatedBy == v.updatedBy && r.values.cp == v.cp
      && r.values.managerDecision == v.managerDecision && r.values.firstApprover == v.firstApprover
      && match r.place
         case Paused(node, signals) => node == AwaitApproval && Called(r.values)
         case Ended => r.values.breach.Some? && !Called(r.values)
         case Raised(node) => IsEvaluation(node) || node == AwaitApproval
  {
    hide ComputeExposureNode, EvaluateNode;
    NodesWriteTheirOwn(v, w);
    var priced := ComputeExposureNode(v, w);
    if priced.Some? {
      var termed := FetchCsaNode(priced.value, w);
      if termed.Some? {
        NodesWriteTheirOwn(termed.value, w);
      }
    }
  }

  /** `v` with the first signature of `v'`. */
  function SignedLike(v: Values, v': Values): Values {
    v.(approval := v'.approval, adjusted := v'.adjusted, firstApprover := v'.firstApprover)
  }

  lemma SameExposure(v: Values, s: Values, w: World)
    ensures var n, n' := ComputeExposureNode(v, w), ComputeExposureNode(SignedLike(v, s), w);
      n'.Some? == n.Some? && (n.Some? ==> n'.value == SignedLike(n.value, s))
  {
    hide MtmOf, EventExposureImpact, InitialMargin, VariationMargin;
    assert CurrentTrigger(SignedLike(v, s)) == CurrentTrigger(v);
  }

  lemma SameBreach(v: Values, s: Values, w: World)
    ensures var n, n' := EvaluateNode(v, w), EvaluateNode(SignedLike(v, s), w);
      n'.Some? == n.Some? && (n.Some? ==> n'.value == SignedLike(n.value, s))
  {
    hide EvaluateBreach;
  }

  /** The evaluation reads nothing that a signature writes. */
  lemma SameEvaluation(v: Values, v': Values, log: seq<Event>, log': seq<Event>, w: World)
    requires v' == SignedLike(v, v')
    ensures var r, r' := FromStart(v, log, w), FromStart(v', log', w);
      r'.place == r.place && r'.values == SignedLike(r.values, v')
  {
    hide ComputeExposureNode, EvaluateNode;
    SameExposure(v, v', w);
    var priced := ComputeExposureNode(v, w);
    if priced.Some? {
      var termed := FetchCsaNode(priced.value, w);
      if termed.Some? {
        SameBreach(termed.value, v', w);
      }
    }
  }

  /** Starting a thread again once somebody has signed it never gives a sound run. */
  lemma RestartingSignedRunIsUnsound(r: Run, trigger: Trigger, cp: string, w: World)
    requires r.values.approval.Some?
    ensures !RunOk(Start(Some(r), trigger, cp, w))
  {
    hide FromStart;
    SignedRestartIsUnsound(r.values.(impact := trigger, cp := cp), r.log, w);
  }

  /** A graph restart of signed values rests nowhere a signed run may rest. */
  lemma SignedRestartIsUnsound(v: Values, log: seq<Event>, w: World)
    requires v.approval.Some?
    ensures !RunOk(FromStart(v, log, w))
  {
    hide FromStart, TrailFits;
    SignedStaysSigned(v, log, w);
  }

  lemma SendOk(v: Values, log: seq<Event>, w: World)
    requires Called(v) && v.tier.Some? && SignedOff(v) && NothingSent(v)
    requires log != [] && log[0].CallRaised? && Trail(log) == Signatures(v)
    ensures RunOk(Send(v, log, w))
  {
    var amount := EffectiveAmount(v);
    var log' := log + [NoticeAttempted(amount)];
    TrailAppend(log, NoticeAttempted(amount));
    assert Trail(log') == Signatures(v) + [NoticeAttempted(amount)];
    if SendNotification !in w.raises && w.delivery.Refused? {
      var sent := v.(routing := Some(w.recipient), sentAt := Some(w.now));
      EscalateOk(sent.(messageId := None, deliveryFailure := Some(w.delivery.reason), sla := Some(Missed)), log', w);
    }
  }

  lemma EscalateOk(v: Values, log: seq<Event>, w: World)
    requires Called(v) && v.tier.Some? && SignedOff(v) && v.sentAt.Some? && v.sla == Some(Missed)
    requires !v.slaConfirmed && !v.escalated
    requires log != [] && log[0].CallRaised? && Trail(log) == Signatures(v) + [NoticeAttempted(EffectiveAmount(v))]
    ensures RunOk(EscalateNow(v, log, w))
  {
    var amount := EffectiveAmount(v);
    TrailAppend(log, IncidentOpened(amount));
    assert NoticeTrail(v) == [NoticeAttempted(amount)];
    var v' := v.(escalated := true);
    assert NoticeTrail(v') == [NoticeAttempted(amount)] + [IncidentOpened(amount)];
    assert Trail(log + [IncidentOpened(amount)]) == Signatures(v') + NoticeTrail(v');
  }

  lemma ConfirmOk(v: Values, log: seq<Event>, w: World)
    requires Called(v) && v.tier.Some? && SignedOff(v) && v.sentAt.Some? && v.sla == Some(Met)
    requires !v.slaConfirmed && !v.escalated
    requires log != [] && log[0].CallRaised? && Trail(log) == Signatures(v) + [NoticeAttempted(EffectiveAmount(v))]
    ensures RunOk(ConfirmMet(v, log, w))
  {
    var amount := EffectiveAmount(v);
    TrailAppend(log, SlaConfirmed(amount));
    assert NoticeTrail(v) == [NoticeAttempted(amount)];
    var v' := v.(slaConfirmed := true);
    assert NoticeTrail(v') == [NoticeAttempted(amount)] + [SlaConfirmed(amount)];
    assert Trail(log + [SlaConfirmed(amount)]) == Signatures(v') + NoticeTrail(v');
  }

  lemma SignFirstKeepsOk(r: Run, d: FirstDecision, amount: Option<real>, who: string, w: World)
    requires RunOk(r) && r.place == Paused(AwaitApproval, [])
    ensures RunOk(SignFirst(r, d, amount, who, w))
  {
    var v := r.values.(
      approval := Some(d), adjusted := if d == Adjusted then amount else None, firstApprover := Some(who));
    var log := r.log + [FirstSigned(d, who)];
    TrailAppend(r.log, FirstSigned(d, who));
    if d == Rejected {
    } else if v.tier == Some(Elite) {
      TrailAppend(log, SecondRequested(EffectiveAmount(v)));
    } else {
      SendOk(v, log, w);
    }
  }

  lemma SignSecondKeepsOk(r: Run, d: ManagerDecision, who: string, w: World)
    requires RunOk(r) && r.place == Paused(AwaitManagerApproval, []) && r.values.firstApprover != Some(who)
    ensures RunOk(SignSecond(r, d, who, w))
  {
    var v := r.values.(
      managerDecision := Some(d), manager := Some(who),
      approval := if d == Overturned then Some(Disputed) else r.values.approval);
    TrailAppend(r.log, SecondSigned(d, who));
    if d == Ratified {
      SendOk(v, r.log + [SecondSigned(d, who)], w);
    }
  }

  lemma SlaResumeKeepsOk(r: Run, signal: SlaSignal, w: World)
    requires RunOk(r) && r.place.Paused? && r.place.node == AwaitSlaResponse
    ensures RunOk(SlaResume(r, signal, w))
  {
    var signals := r.place.signals + [signal];
    assert NoticeTrail(r.values) == [NoticeAttempted(EffectiveAmount(r.values))];
    match Replay(signals, w.now, Deadline(r.values, w))
    case Waiting =>
      WaitingMeansChecks(signals, w.now, Deadline(r.values, w));
    case Resolved(Met, _) =>
      ConfirmOk(r.values.(sla := Some(Met)), r.log, w);
    case Resolved(Missed, failure) =>
      EscalateOk(
        r.values.(sla := Some(Missed), deliveryFailure := if failure.Some? then failure else r.values.deliveryFailure),
        r.log, w);
  }

  lemma AwaitingIsUnsigned(v: Values)
    requires OpenStage(v) == Some(AwaitingApproval)
    ensures v.approval == None
  {
    match v.approval
    case None =>
    case Some(Approved) =>
    case Some(Rejected) =>
    case Some(Adjusted) =>
    case Some(Disputed) =>
  }

  /** A run paused at any gate is an open call. */
  lemma PausedIsOpen(r: Run)
    requires RunOk(r) && r.place.Paused?
    ensures Open(r) && Called(r.values)
    ensures r.place.node != AwaitApproval ==> r.values.approval.Some?
  {
  }

  lemma {:induction false} WaitingMeansChecks(signals: seq<SlaSignal>, now: int, deadline: int)
    ensures Replay(signals, now, deadline) == Waiting <==> AllChecks(signals) && (signals == [] || now < deadline)
  {
    if signals != [] {
      WaitingMeansChecks(signals[1..], now, deadline);
      assert forall i :: 1 <= i < |signals| ==> signals[i] == signals[1..][i - 1];
    }
  }

  // ----- what it means ------------------------------------------------------------------

  /** A notice attempt on record: the first signature before it was an approval (or an
      adjusted one), and an elite counterparty's was ratified before it by somebody else.
      Nothing a rejected or overturned run has on record is a notice. */
  lemma NoticeNeedsSignatures(r: Run, i: nat)
    requires RunOk(r) && i < |Trail(r.log)| && Trail(r.log)[i].NoticeAttempted?
    ensures var t := Trail(r.log);
      && i >= 1 && t[0].FirstSigned? && t[0].decision in {Approved, Adjusted}
      && (r.values.tier == Some(Elite) ==>
            i == 3 && t[2].SecondSigned? && t[2].verdict == Ratified && t[2].who != t[0].who)
      && Signed(r.values)
      && (forall j :: 0 <= j < |t| && t[j].NoticeAttempted? ==> j == i)
  {
    var t := Trail(r.log);
    if Signed(r.values) {
      assert t == SignedTrail(r.values);
    }
  }

  /** Every figure quoted after the first signature - to the manager, to the client,
      in the confirmation and in the incident - is the effective amount of the call. */
  lemma QuotesAgree(r: Run)
    requires RunOk(r) && Signed(r.values)
    ensures forall e <- Trail(r.log) ::
      && (e.SecondRequested? ==> e.amount == EffectiveAmount(r.values))
      && (e.NoticeAttempted? ==> e.amount == EffectiveAmount(r.values))
      && (e.SlaConfirmed? ==> e.amount == EffectiveAmount(r.values))
      && (e.IncidentOpened? ==> e.amount == EffectiveAmount(r.values))
      && !e.CallRaised?
  {
  }

  /** Replay with any number of earlier timer checks. Before the deadline the latest
      signal decides; from the deadline on, a run that has been checked before is
      missed whatever arrives, while one never checked still takes the new signal. */
  lemma ReplayMeaning(earlier: seq<SlaSignal>, signal: SlaSignal, now: int, deadline: int)
    requires AllChecks(earlier)
    ensures Replay(earlier + [signal], now, deadline)
         == if now >= deadline && earlier != [] then Resolved(Missed, None)
            else match signal
              case Responded => Resolved(Met, None)
              case DeliveryFailed(reason) => Resolved(Missed, Some(reason))
              case Check => if now >= deadline then Resolved(Missed, None) else Waiting
  {
    if earlier == [] {
      assert earlier + [signal] == [signal];
    } else if now < deadline {
      ReplayPassesChecks(earlier, signal, now, deadline);
    } else {
    }
  }

  lemma {:induction false} ReplayPassesChecks(earlier: seq<SlaSignal>, signal: SlaSignal, now: int, deadline: int)
    requires AllChecks(earlier) && now < deadline
    ensures Replay(earlier + [signal], now, deadline) == Replay([signal], now, deadline)
  {
    if earlier == [] {
      assert earlier + [signal] == [signal];
    } else {
      assert (earlier + [signal])[1..] == earlier[1..] + [signal];
      ReplayPassesChecks(earlier[1..], signal, now, deadline);
    }
  }

  /** The SLA gate of a reachable run: a response before the deadline is always met,
      and counts exactly when it comes in time or no check came before it; nothing is
      missed before the deadline unless delivery failed; a check alone never resolves
      early. */
  lemma SlaOutcomes(r: Run, signal: SlaSignal, w: World)
    requires RunOk(r) && r.place.Paused? && r.place.node == AwaitSlaResponse
    ensures var r' := SlaResume(r, signal, w);
      var late := w.now >= Deadline(r.values, w);
      && (signal == Responded ==> (r'.values.sla == Some(Met) <==> !late || r.place.signals == []))
      && (r'.values.sla == Some(Missed) ==> late || signal.DeliveryFailed?)
      && (signal == Check ==> (r'.values.sla == None <==> !late) && (late ==> r'.values.sla == Some(Missed)))
      && (signal.DeliveryFailed? ==> r'.values.sla == Some(Missed))
      && (signal.DeliveryFailed? ==>
            (r'.values.deliveryFailure == Some(signal.reason) <==> !late || r.place.signals == []))
  {
    ReplayMeaning(r.place.signals, signal, w.now, Deadline(r.values, w));
  }

  // ----- what an evaluation and a notice amount to -------------------------------------------

  /** Nothing external fails and the book can be priced. */
  predicate Smooth(w: World, moves: seq<PriceMove>) {
    && w.raises == {} && w.vix.Some? && w.csa.Some?
    && Exposure(w.positions, w.prices, w.prior, w.vix.value).Success?
    && (moves != [] ==> EventExposureImpact(w.positions, moves, w.vix.value).Success?)
  }

  function BreachIn(w: World): BreachResult
    requires w.vix.Some? && w.csa.Some? && Exposure(w.positions, w.prices, w.prior, w.vix.value).Success?
  {
    EvaluateBreach(Exposure(w.positions, w.prices, w.prior, w.vix.value).value, w.held, w.csa.value, w.rating)
  }

  /** A new run raises a call exactly when the scalar engine finds a breach that the
      materiality gate - for price events only - does not hold; the call is for the
      engine's amount and waits for its first approval. */
  lemma StartedRunMeaning(trigger: Trigger, cp: string, w: World)
    requires Smooth(w, trigger.moves)
    ensures var r := Start(None, trigger, cp, w);
      var impact := EventExposureImpact(w.positions, trigger.moves, w.vix.value);
      var material := trigger.moves == [] || IsMaterial(impact.value.exposureChange, w.csa.value.mta);
      && r.values.breach == Some(BreachIn(w))
      && (Open(r) <==> BreachIn(w).breached && material)
      && (Open(r) ==> r.place == Paused(AwaitApproval, []) && r.log == [CallRaised(BreachIn(w).callAmount)]
                      && EffectiveAmount(r.values) == BreachIn(w).callAmount)
      && (!Open(r) ==> r.place == Ended && r.log == [])
  {
    hide MtmOf, EventExposureImpact, InitialMargin, VariationMargin, EvaluateBreach;
  }

  /** A graph restart evaluates afresh whatever the thread holds: the breach is the
      engine's, and it pauses at the first gate exactly when a call stands. */
  lemma EvaluationMeaning(v: Values, log: seq<Event>, w: World)
    requires Smooth(w, CurrentTrigger(v).moves)
    ensures var r := FromStart(v, log, w);
      && r.values.breach == Some(BreachIn(w)) && (CurrentTrigger(v).moves == [] ==> r.values.materiality == None)
      && (Called(r.values) ==> BreachIn(w).breached && r.place == Paused(AwaitApproval, []))
      && (!Called(r.values) ==> r.place == Ended && r.log == log)
  {
    hide MtmOf, EventExposureImpact, InitialMargin, VariationMargin, EvaluateBreach;
  }

  /** A re-evaluated unsigned call stays open, at the engine's new amount, exactly while
      there is a breach at all: materiality no longer counts. */
  lemma ReevaluatedRunMeaning(r: Run, trigger: Trigger, updatedBy: seq<string>, w: World)
    requires NothingSigned(r.values) && NothingSent(r.values) && Smooth(w, trigger.moves) && updatedBy != []
    ensures var r' := Reevaluate(r, trigger, updatedBy, w);
      && r'.values.breach == Some(BreachIn(w)) && r'.values.materiality == None
      && (Open(r') <==> BreachIn(w).breached)
      && (Open(r') ==> r'.place == Paused(AwaitApproval, []) && EffectiveAmount(r'.values) == BreachIn(w).callAmount
                       && r'.log == r.log + [CallRaised(BreachIn(w).callAmount)])
      && (!Open(r') ==> r'.place == Ended && r'.log == r.log)
  {
    hide MtmOf, EventExposureImpact, InitialMargin, VariationMargin, EvaluateBreach;
  }

  /** What sending a signed-off call's notice leaves behind: accepted, the SLA clock starts
      at the time of sending; refused, the run escalates at once with the reason, and never
      waits for the client. Either way it keeps whom the notice was sent to. */
  predicate NoticeSent(r': Run, quoted: real, w: World) {
    && NoticeAttempted(quoted) in r'.log && r'.values.sentAt == Some(w.now) && r'.values.routing == Some(w.recipient)
    && (w.delivery.Sent? ==> r'.place == Paused(AwaitSlaResponse, []) && r'.values.messageId == w.delivery.messageId)
    && (w.delivery.Refused? ==>
          r'.values.sla == Some(Missed) && r'.values.deliveryFailure == Some(w.delivery.reason)
          && r'.place == (if Escalate in w.raises then Raised(Escalate) else Ended))
  }

  /** A standard counterparty's notice goes out with the first signature, for the amount
      decided there. */
  lemma NoticeMeaning(r: Run, d: FirstDecision, amount: Option<real>, who: string, w: World)
    requires RunOk(r) && r.place == Paused(AwaitApproval, []) && r.values.tier == Some(Standard) && d != Rejected
    requires SendNotification !in w.raises
    ensures var quoted := if d == Adjusted && amount.Some? then amount.value else r.values.breach.value.callAmount;
      && NoticeSent(SignFirst(r, d, amount, who, w), quoted, w)
      && r.log + [FirstSigned(d, who), NoticeAttempted(quoted)] <= SignFirst(r, d, amount, who, w).log
  {
  }

  /** An elite counterparty's goes out with the ratification and not before, for the amount
      of the first decision. */
  lemma RatifiedNoticeMeaning(r: Run, who: string, w: World)
    requires RunOk(r) && r.place == Paused(AwaitManagerApproval, []) && SendNotification !in w.raises
    ensures r.values.sentAt == None && forall e :: e in r.log ==> !e.NoticeAttempted?
    ensures r.values.breach.Some? && NoticeSent(SignSecond(r, Ratified, who, w), EffectiveAmount(r.values), w)
  {
    TrailHoldsNotices(r.log);
    assert Signed(r.values) ==> Trail(r.log) == Signatures(r.values);
  }

  lemma {:induction false} TrailHoldsNotices(log: seq<Event>)
    ensures forall e :: e in log && !e.CallRaised? ==> e in Trail(log)
  {
    if log != [] && log[0].CallRaised? {
      assert log == [log[0]] + log[1..];
      TrailHoldsNotices(log[1..]);
    }
  }

  /** The standing example: one equity share, priced at 1, and no agreed threshold. Its
      exposure is 0.15, so there is a breach exactly while less than that is held. */
  lemma SomeWorld(held: real) returns (w: World)
    ensures forall moves :: Smooth(w, moves)
    ensures w.raises == {} && w.delivery == Sent(None) && w.tier == None
    ensures held == 0.0 ==> BreachIn(w).breached
    ensures held == 1.0 ==> !BreachIn(w).breached
  {
    var p := Position("p", "f", "X", Equity, 1.0);
    var prices := map["X" := 1.0];
    w := World([p], prices, prices, Some(20.0), Some(CsaTerms(0.0, 0.0, "USD", [])), held, None, None, {}, ToDefault,
               Sent(None), 0, 0);
    forall moves ensures EventExposureImpact([p], moves, 20.0).Success? {
      ImpactOfPricedBook([p], moves, 20.0);
    }
    ExposureOfPricedBook([p], prices, prices, 20.0);
    var valued := Valued([p], prices);
    assert [p][1..] == [];
    assert valued == [Value(p, 1.0)];
    assert valued[1..] == [];
    assert BaseIm(valued) == Charge(valued[0]) + BaseIm(valued[1..]);
    assert Charge(valued[0]) == 0.15;
    assert VixMultiplier(20.0) == Success(1.0);
    assert Exposure([p], prices, prices, 20.0) == Success(0.15);
  }

  /** Some world raises a call for every trigger without price moves. */
  lemma SomeWorldRaises(trigger: Trigger, cp: string) returns (w: World)
    requires trigger.moves == []
    ensures Open(Start(None, trigger, cp, w)) && w.raises == {} && w.delivery.Sent?
    ensures Smooth(w, []) && BreachIn(w).breached
  {
    w := SomeWorld(0.0);
    StartedRunMeaning(trigger, cp, w);
  }

  // ----- what a signature freezes ----------------------------------------------------------

  /** `r'` is `r` later: nothing recorded is rewritten, the signed figure stands unless
      the manager overturned it, and a sent notice and a resolved outcome are final. */
  predicate Later(r: Run, r': Run)
    requires Called(r.values) && r.values.approval.Some?
  {
    && Called(r'.values) && r'.values.approval.Some?
    && (r'.values.approval == r.values.approval || (Signed(r.values) && r'.values.approval == Some(Disputed)))
    && (Signed(r'.values) ==> EffectiveAmount(r'.values) == EffectiveAmount(r.values))
    && (r.values.sentAt.Some? ==> r'.values.sentAt == r.values.sentAt && r'.values.routing == r.values.routing)
    && (r.values.sla.Some? ==> r'.values.sla == r.values.sla && r'.values.deliveryFailure == r.values.deliveryFailure)
    && r.log <= r'.log
  }

  lemma LaterIsTransitive(r: Run, r': Run, r'': Run)
    requires Called(r.values) && r.values.approval.Some?
    requires Later(r, r') && Later(r', r'')
    ensures Later(r, r'')
  {
  }

  lemma SecondSignatureFreezes(r: Run, d: ManagerDecision, who: string, w: World)
    requires RunOk(r) && r.place == Paused(AwaitManagerApproval, [])
    ensures Called(r.values) && r.values.approval.Some? && Later(r, SignSecond(r, d, who, w))
  {
  }

  lemma SlaResumeFreezes(r: Run, signal: SlaSignal, w: World)
    requires RunOk(r) && r.place.Paused? && r.place.node == AwaitSlaResponse
    ensures Called(r.values) && r.values.approval.Some? && Later(r, SlaResume(r, signal, w))
  {
  }
}
