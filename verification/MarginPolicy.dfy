/** The margin-call policy (src/agents/margin_policy.py): what one trigger does for
    one counterparty, given the runs it finds. Used by the sequential store and by
    the concurrent protocol alike. */
module MarginPolicy {
  import opened Wrappers
  import opened Calc
  import opened MarginRun

  /** A run's identity: its event and its counterparty. */
  datatype Key = Key(event: string, cp: string)

  const LEASE_TTL: int := 900 // seconds

  // ----- thread ids -----------------------------------------------------------------

  /** The persisted form of a key. */
  function ThreadId(k: Key): string {
    k.event + ":" + k.cp
  }

  /** `rsplit(":", 1)[-1]`: what follows the last colon. */
  function LastSegment(s: string): string {
    if s == [] then [] else if s[|s| - 1] == ':' then [] else LastSegment(s[..|s| - 1]) + [s[|s| - 1]]
  }

  lemma {:induction false} LastSegmentOf(e: string, c: string)
    ensures LastSegment(e + ":" + c) == c <==> ':' !in c
    ensures |LastSegment(c)| <= |c|
  {
    var s := e + ":" + c;
    if c != [] {
      var head, last := c[..|c| - 1], c[|c| - 1];
      assert s[..|s| - 1] == e + ":" + head && s[|s| - 1] == last;
      assert c == head + [last];
      LastSegmentOf(e, head);
    }
  }

  /** The exact comparison behind the `LIKE` query finds a counterparty's threads, and
      only those, exactly when its id has no colon; ids without colons also keep
      different keys' threads apart. */
  lemma ThreadsOfCounterparty(k: Key, cp: string)
    ensures ':' !in k.cp ==> (LastSegment(ThreadId(k)) == cp <==> k.cp == cp)
    ensures ':' in cp ==> LastSegment(ThreadId(Key(k.event, cp))) != cp
  {
    LastSegmentOf(k.event, k.cp);
    LastSegmentOf(k.event, cp);
  }

  lemma ThreadIdInjective(k: Key, k': Key)
    requires ':' !in k.cp && ':' !in k'.cp && ThreadId(k) == ThreadId(k')
    ensures k == k'
  {
    LastSegmentOf(k.event, k.cp);
    LastSegmentOf(k'.event, k'.cp);
    assert k.event == ThreadId(k)[..|ThreadId(k)| - |k.cp| - 1];
    assert k'.event == ThreadId(k')[..|ThreadId(k')| - |k'.cp| - 1];
  }

  // ----- finding the open call ----------------------------------------------------------

  ghost predicate OpenAt(runs: map<Key, Run>, k: Key, cp: string) {
    k in runs && k.cp == cp && Open(runs[k])
  }

  /** What find_open_call may answer: no open call, or a most recent one. */
  ghost predicate Finds(runs: map<Key, Run>, cp: string, found: Option<Key>) {
    match found
    case None => forall k :: !OpenAt(runs, k, cp)
    case Some(k) =>
      OpenAt(runs, k, cp)
      && forall k' | OpenAt(runs, k', cp) :: runs[k'].values.impact.occurredAt <= runs[k].values.impact.occurredAt
  }

  ghost predicate AtMostOneOpen(runs: map<Key, Run>, cp: string) {
    forall k, k' :: OpenAt(runs, k, cp) && OpenAt(runs, k', cp) ==> k == k'
  }

  // ----- the decision -----------------------------------------------------------------------

  datatype Verdict = StartNew | AlreadyApplied | BelowGate | GateFailed | Absorbed | ReevaluateCall

  /** `seen` is the open call's state as the dispatch read it. */
  function Judge(seen: Option<Values>, trigger: Trigger, w: World): Verdict {
    if seen.None? then StartNew
    else
      var v := seen.value;
      if trigger.eventId == v.impact.eventId || trigger.eventId in v.updatedBy then AlreadyApplied
      else
        var gate := if trigger.moves == [] then None else Some(IntradayGate(v, trigger, w));
        if gate.Some? && gate.value != Absorbed then gate.value
        else if OpenStage(v) != Some(AwaitingApproval) then Absorbed
        else ReevaluateCall
  }

  /** The intraday pre-check on an open call, with the call's own terms; `Absorbed` means it passed. */
  function IntradayGate(v: Values, trigger: Trigger, w: World): (verdict: Verdict)
    ensures verdict == GateFailed || verdict == BelowGate || verdict == Absorbed
  {
    if w.positions == [] || w.vix.None? || v.csa.None? then GateFailed
    else
      var impact := EventExposureImpact(w.positions, trigger.moves, w.vix.value);
      if impact.Failure? then GateFailed
      else if !IsMaterial(impact.value.exposureChange, v.csa.value.mta) then BelowGate
      else Absorbed
  }

  function Lookup(runs: map<Key, Run>, k: Key): Option<Run> {
    if k in runs then Some(runs[k]) else None
  }

  /** The runs after one dispatch of `trigger` for `key`, which read `seen`. */
  function Applied(runs: map<Key, Run>, key: Key, trigger: Trigger, seen: Option<(Key, Values)>, w: World)
    : map<Key, Run>
    requires seen.Some? ==> seen.value.0 in runs
  {
    match Judge(if seen.Some? then Some(seen.value.1) else None, trigger, w)
    case StartNew => runs[key := Start(Lookup(runs, key), trigger, key.cp, w)]
    case ReevaluateCall =>
      var (k, v) := seen.value;
      runs[k := Reevaluate(runs[k], trigger, v.updatedBy + [trigger.eventId], w)]
    case _ => runs
  }

  /** A sound, unsigned thread that is not the counterparty's open call can be started. */
  lemma NoOpenCallIsStartable(runs: map<Key, Run>, k: Key)
    requires k in runs ==> RunOk(runs[k])
    requires Unsigned(Lookup(runs, k)) && !OpenAt(runs, k, k.cp)
    ensures Startable(Lookup(runs, k))
  {
    if k in runs {
      UnsignedRecord(runs[k]);
    }
  }

  lemma ReevaluationSignsNothing(r: Run, trigger: Trigger, updatedBy: seq<string>, w: World)
    ensures Reevaluate(r, trigger, updatedBy, w).values.approval == r.values.approval
  {
    SignedStaysSigned(r.values.(trigger := Some(trigger), updatedBy := updatedBy), r.log, w);
    hide FromStart;
  }

  /** What a later trigger does to an open call: it re-evaluates the call in place exactly
      when the call does not carry it yet, nobody has signed it, and - for a price event -
      its own impact on the book exceeds the call's minimum transfer amount. Otherwise
      every run stays as it is; no second call is started either way. */
  lemma WhatMovesAnOpenCall(runs: map<Key, Run>, key: Key, trigger: Trigger, k: Key, w: World)
    requires k in runs && RunOk(runs[k]) && Open(runs[k])
    ensures var v := runs[k].values;
      var counts := trigger.moves == []
        || (w.positions != [] && w.vix.Some? && v.csa.Some?
            && EventExposureImpact(w.positions, trigger.moves, w.vix.value).Success?
            && EventExposureImpact(w.positions, trigger.moves, w.vix.value).value.exposureChange > v.csa.value.mta);
      var isNew := trigger.eventId != v.impact.eventId && trigger.eventId !in v.updatedBy;
      var moved := isNew && v.approval == None && counts;
      Applied(runs, key, trigger, Some((k, v)), w)
      == if moved then runs[k := Reevaluate(runs[k], trigger, v.updatedBy + [trigger.eventId], w)] else runs
  {
    hide Reevaluate, EventExposureImpact;
    var v := runs[k].values;
    if OpenStage(v) == Some(AwaitingApproval) {
      AwaitingIsUnsigned(v);
    } else {
      assert v.approval.Some?;
    }
  }
}
