/** The endpoints that advance a run (src/api/main.py): each checks what the run is
    paused at and then resumes it. */
module Endpoints {
  import opened Wrappers
  import opened MarginRun
  import opened MarginPolicy
  import opened Store

  datatype Response =
    | Signed(decision: Option<Decision>, adjusted: Option<real>)
    | CounterSigned(decision: Option<Decision>, verdict: Option<ManagerDecision>)
    | Sla(outcome: Option<SlaOutcome>)
    | Conflict(pending: Option<Node>)   // 409
    | SamePerson                        // 403
    | UnknownCall                       // 404
    | TooEarly                          // 503
    | RunFailed(node: Node)             // 500: the resumed run raised

  /** The node whose interrupt is live, None for an unknown or resting run. */
  function Pending(runs: map<Key, Run>, k: Key): Option<Node> {
    if k in runs && runs[k].place.Paused? then Some(runs[k].place.node) else None
  }

  function Resumed(r: Run, ok: Response): Response {
    if r.place.Raised? then RunFailed(r.place.node) else ok
  }

  /** A sound run paused at a node holds what that node reads. */
  lemma PendingHolds(s: Tables, k: Key)
    requires TablesOk(s) && Pending(s.runs, k).Some?
    ensures RunOk(s.runs[k]) && Open(s.runs[k]) && s.runs[k].values.breach.Some?
    ensures Pending(s.runs, k) == Some(AwaitSlaResponse) ==> s.runs[k].values.sentAt.Some?
    ensures Pending(s.runs, k) != Some(AwaitApproval) ==> s.runs[k].values.approval.Some?
    ensures Pending(s.runs, k) == Some(AwaitApproval) ==> s.runs[k].place.signals == []
    ensures Pending(s.runs, k) == Some(AwaitManagerApproval) ==> s.runs[k].place.signals == []
    ensures Pending(s.runs, k) == Some(AwaitApproval) || Pending(s.runs, k) == Some(AwaitManagerApproval)
            || Pending(s.runs, k) == Some(AwaitSlaResponse)
  {
    assert RunOk(s.runs[k]);
    PausedIsOpen(s.runs[k]);
  }

  /** The tables stay in order exactly when a run that is signed here is claimed: its claim
      row keeps the run's own trigger from starting it again. */
  method Approve(db: Database, k: Key, decision: FirstDecision, amount: Option<real>, approver: string, w: World)
    returns (response: Response)
    requires TablesOk(db.Now())
    modifies db`runs
    ensures TablesOk(db.Now()) <==> Pending(old(db.runs), k) != Some(AwaitApproval) || RunClaim(k) in db.rows
    ensures if Pending(old(db.runs), k) != Some(AwaitApproval)
            then db.runs == old(db.runs) && response == Conflict(Pending(old(db.runs), k))
            else old(db.runs)[k].values.breach.Some?
                 && db.runs == old(db.runs)[k := SignFirst(old(db.runs)[k], decision, amount, approver, w)]
                 && response == Resumed(
                   db.runs[k], Signed(Some(decision), if decision == Adjusted then amount else None))
  {
    hide RunOk, TablesOk, Open, SignFirst;
    var pending := Pending(db.runs, k);
    if pending != Some(AwaitApproval) {
      return Conflict(pending);
    }
    PendingHolds(db.Now(), k);
    var r := SignFirst(db.runs[k], decision, amount, approver, w);
    SignFirstKeepsOk(db.runs[k], decision, amount, approver, w);
    SignFirstRecords(db.runs[k], decision, amount, approver, w);
    if RunClaim(k) in db.rows {
      ReplacingOpenRunKeepsOk(db.Now(), k, r);
    } else {
      SigningUnclaimedBreaksOk(db.Now(), k, r);
    }
    db.runs := db.runs[k := r];
    response := Resumed(r, Signed(r.values.approval, r.values.adjusted));
  }

  lemma SignFirstRecords(r: Run, d: FirstDecision, amount: Option<real>, who: string, w: World)
    requires r.values.breach.Some?
    ensures var v := SignFirst(r, d, amount, who, w).values;
      v.approval == Some(d) && v.adjusted == (if d == Adjusted then amount else None) && v.firstApprover == Some(who)
  {
  }

  method ManagerApprove(db: Database, k: Key, decision: ManagerDecision, manager: string, w: World)
    returns (response: Response)
    requires TablesOk(db.Now())
    modifies db`runs
    ensures TablesOk(db.Now())
    ensures if Pending(old(db.runs), k) != Some(AwaitManagerApproval)
            then db.runs == old(db.runs) && response == Conflict(Pending(old(db.runs), k))
            else if old(db.runs)[k].values.firstApprover == Some(manager)
            then db.runs == old(db.runs) && response == SamePerson
            else old(db.runs)[k].values.breach.Some?
                 && db.runs == old(db.runs)[k := SignSecond(old(db.runs)[k], decision, manager, w)]
                 && response == Resumed(db.runs[k], CounterSigned(db.runs[k].values.approval, Some(decision)))
  {
    hide RunOk, TablesOk, Open, SignSecond;
    var pending := Pending(db.runs, k);
    if pending != Some(AwaitManagerApproval) {
      return Conflict(pending);
    }
    if db.runs[k].values.firstApprover == Some(manager) {
      return SamePerson;
    }
    PendingHolds(db.Now(), k);
    var r := SignSecond(db.runs[k], decision, manager, w);
    SignSecondKeepsOk(db.runs[k], decision, manager, w);
    SignSecondRecords(db.runs[k], decision, manager, w);
    SignedRunIsClaimed(db.Now(), k);
    ReplacingOpenRunKeepsOk(db.Now(), k, r);
    db.runs := db.runs[k := r];
    response := Resumed(r, CounterSigned(r.values.approval, r.values.managerDecision));
  }

  lemma SignSecondRecords(r: Run, d: ManagerDecision, who: string, w: World)
    requires r.values.breach.Some?
    ensures SignSecond(r, d, who, w).values.managerDecision == Some(d)
  {
  }

  /** Resuming the SLA gate of a run that is at it: the client's reply or a timer check. */
  method ResumeSla(db: Database, k: Key, signal: SlaSignal, w: World)
    requires TablesOk(db.Now()) && Pending(db.runs, k) == Some(AwaitSlaResponse)
    modifies db`runs
    ensures TablesOk(db.Now())
    ensures old(db.runs)[k].values.breach.Some? && old(db.runs)[k].values.sentAt.Some?
    ensures db.runs == old(db.runs)[k := SlaResume(old(db.runs)[k], signal, w)]
  {
    hide RunOk, TablesOk, Open, SlaResume;
    PendingHolds(db.Now(), k);
    SignedRunIsClaimed(db.Now(), k);
    SlaResumeKeepsOk(db.runs[k], signal, w);
    ReplacingOpenRunKeepsOk(db.Now(), k, SlaResume(db.runs[k], signal, w));
    db.runs := db.runs[k := SlaResume(db.runs[k], signal, w)];
  }

  /** /respond and /check-sla: `signal` is the one the endpoint sends. */
  method Signal(db: Database, k: Key, signal: SlaSignal, w: World) returns (response: Response)
    requires TablesOk(db.Now())
    modifies db`runs
    ensures TablesOk(db.Now())
    ensures if Pending(old(db.runs), k) != Some(AwaitSlaResponse)
            then db.runs == old(db.runs) && response == Conflict(Pending(old(db.runs), k))
            else old(db.runs)[k].values.breach.Some? && old(db.runs)[k].values.sentAt.Some?
                 && db.runs == old(db.runs)[k := SlaResume(old(db.runs)[k], signal, w)]
                 && response == Resumed(db.runs[k], Sla(db.runs[k].values.sla))
  {
    hide RunOk, TablesOk, Open, SlaResume;
    var pending := Pending(db.runs, k);
    if pending != Some(AwaitSlaResponse) {
      return Conflict(pending);
    }
    ResumeSla(db, k, signal, w);
    response := Resumed(db.runs[k], Sla(db.runs[k].values.sla));
  }

  /** The timer's own endpoint. */
  method InternalSlaCheck(db: Database, k: Key, w: World) returns (response: Response)
    requires TablesOk(db.Now())
    modifies db`runs
    ensures TablesOk(db.Now())
    ensures Pending(old(db.runs), k) != Some(AwaitSlaResponse) ==> (
        db.runs == old(db.runs)
        && response == (if k !in db.runs then UnknownCall
                        else if db.runs[k].values.sla == None then Conflict(Pending(db.runs, k))
                        else Sla(db.runs[k].values.sla)))
    ensures Pending(old(db.runs), k) == Some(AwaitSlaResponse) ==> (
        var r := old(db.runs)[k];
        r.values.breach.Some? && r.values.sentAt.Some?
        && db.runs == old(db.runs)[k := SlaResume(r, Check, w)]
        && (response == TooEarly <==> w.now < Deadline(r.values, w))
        && (w.now >= Deadline(r.values, w) ==> response == Resumed(db.runs[k], Sla(Some(Missed)))))
  {
    hide RunOk, TablesOk, Open, SlaResume;
    if Pending(db.runs, k) != Some(AwaitSlaResponse) {
      if k !in db.runs {
        return UnknownCall;
      }
      var outcome := db.runs[k].values.sla;
      return if outcome == None then Conflict(Pending(db.runs, k)) else Sla(outcome);
    }
    PendingHolds(db.Now(), k);
    SlaOutcomes(db.runs[k], Check, w);
    CheckLeavesPaused(db.runs[k], w);
    ResumeSla(db, k, Check, w);
    var r := db.runs[k];
    response := if r.place.Raised? then RunFailed(r.place.node)
                else if r.values.sla == None then TooEarly else Sla(r.values.sla);
  }

  lemma CheckLeavesPaused(r: Run, w: World)
    requires RunOk(r) && r.place.Paused? && r.place.node == AwaitSlaResponse
    ensures w.now < Deadline(r.values, w) ==>
      SlaResume(r, Check, w) == r.(place := Paused(AwaitSlaResponse, r.place.signals + [Check]))
  {
    ReplayMeaning(r.place.signals, Check, w.now, Deadline(r.values, w));
  }

  // ----- what the guards amount to -------------------------------------------------------

  function Rank(n: Node): nat {
    match n
    case AwaitApproval => 1
    case AwaitManagerApproval => 2
    case AwaitSlaResponse => 3
    case _ => 0
  }

  /** The step at gate `n` of `r`, whichever endpoint takes it, ends as `r'`. */
  ghost predicate Advances(r: Run, n: Node, r': Run)
    requires RunOk(r) && r.place.Paused? && r.place.node == n
  {
    GateReads(r);
    if n == AwaitApproval then
      exists d: FirstDecision, a: Option<real>, who: string, w: World :: r' == SignFirst(r, d, a, who, w)
    else if n == AwaitManagerApproval then
      exists d: ManagerDecision, who: string, w: World :: r' == SignSecond(r, d, who, w)
    else
      exists signal: SlaSignal, w: World :: r' == SlaResume(r, signal, w)
  }

  lemma FirstGateOnce(r: Run, d: FirstDecision, a: Option<real>, who: string, w: World)
    requires r.values.breach.Some?
    ensures var r' := SignFirst(r, d, a, who, w);
      && (r'.place.Paused? ==> Rank(r'.place.node) > Rank(AwaitApproval)
                               && (r'.place.node == AwaitManagerApproval <==> r.values.tier == Some(Elite)))
      && r.log < r'.log
  {
  }

  lemma SecondGateOnce(r: Run, d: ManagerDecision, who: string, w: World)
    requires r.values.breach.Some?
    ensures var r' := SignSecond(r, d, who, w);
      (r'.place.Paused? ==> r'.place.node == AwaitSlaResponse) && r.log < r'.log
  {
  }

  lemma SlaGateLast(r: Run, signal: SlaSignal, w: World)
    requires r.place.Paused? && r.values.breach.Some? && r.values.sentAt.Some?
    ensures var r' := SlaResume(r, signal, w);
      r'.place.Paused? ==> r'.place.node == AwaitSlaResponse && r'.place.signals == r.place.signals + [signal]
  {
    hide Replay;
  }

  /** A payload is delivered to the gate it was meant for and to no other: a gate once
      answered is never pending again, so a second /approve can not fall through to the
      manager's gate, nor either to the SLA step. */
  lemma GatesAreAnsweredOnce(r: Run, n: Node, r': Run)
    requires RunOk(r) && r.place.Paused? && r.place.node == n && Advances(r, n, r')
    ensures r'.place.Paused? ==> Rank(r'.place.node) > Rank(n) || (n == AwaitSlaResponse && r'.place.node == n)
    ensures n == AwaitApproval && r'.place.Paused? ==>
      (r'.place.node == AwaitManagerApproval <==> r.values.tier == Some(Elite))
    ensures n == AwaitApproval || n == AwaitManagerApproval ==> r.log < r'.log
  {
    GateReads(r);
    hide RunOk, SignFirst, SignSecond, SlaResume;
    if n == AwaitApproval {
      var d: FirstDecision, a: Option<real>, who: string, w: World :| r' == SignFirst(r, d, a, who, w);
      FirstGateOnce(r, d, a, who, w);
    } else if n == AwaitManagerApproval {
      var d: ManagerDecision, who: string, w: World :| r' == SignSecond(r, d, who, w);
      SecondGateOnce(r, d, who, w);
    } else {
      var signal: SlaSignal, w: World :| r' == SlaResume(r, signal, w);
      SlaGateLast(r, signal, w);
    }
  }

  lemma GateReads(r: Run)
    requires RunOk(r) && r.place.Paused?
    ensures r.values.breach.Some?
    ensures r.place.node == AwaitApproval || r.place.node == AwaitManagerApproval || r.place.node == AwaitSlaResponse
    ensures r.place.node == AwaitSlaResponse ==> r.values.sentAt.Some?
  {
  }
}
