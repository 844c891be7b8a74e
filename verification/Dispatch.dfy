/** Dispatching one trigger for one counterparty (src/agents/margin_policy.py), in
    place on the shared tables: take the counterparty's lease, find its open call,
    and start, re-evaluate or leave it. */
module Dispatch {
  import opened Wrappers
  import opened MarginRun
  import opened MarginPolicy
  import opened Store

  datatype TriggerAction = Started | Updated | Unchanged

  datatype TriggerOutcome = TriggerOutcome(
    cp: string, action: TriggerAction, key: Key, breached: Option<bool>, callAmount: Option<real>)

  /** The errors the fan-out holds (pricing, terms, market data, guardrail), and the rest. */
  datatype Fault = Business | Unexpected

  /** Errors around the run: taking the lease, before the run has any effect (finding the
      open call, loading the book), or deleting the lease row. */
  datatype Trouble = Untroubled | NoLease | BeforeRun(fault: Fault) | NoRelease

  /** `nodeFault` is how a node that fails from outside fails; `after` is an error once
      the run is persisted (publishing its status, writing the audit row). */
  datatype Env = Env(world: World, nodeFault: Fault, after: Option<Fault>, trouble: Trouble)

  datatype Reply = Done(outcome: TriggerOutcome) | Busy | Failed(fault: Fault)

  // ----- the lease ---------------------------------------------------------------------

  predicate LeaseFree(rows: map<RowId, int>, cp: string, now: int) {
    Lease(cp) !in rows || now - rows[Lease(cp)] >= LEASE_TTL
  }

  method TakeLease(db: Database, cp: string, now: int) returns (taken: bool)
    modifies db`rows
    ensures taken == LeaseFree(old(db.rows), cp, now)
    ensures db.rows == if taken then old(db.rows)[Lease(cp) := now] else old(db.rows)
  {
    taken := db.Insert(Lease(cp), now);
    if !taken {
      if now - db.rows[Lease(cp)] < LEASE_TTL {
        return false;
      }
      db.rows := db.rows[Lease(cp) := now];
      return true;
    }
  }

  // ----- finding the open call -----------------------------------------------------------

  /** Compared as the code does: by what follows the thread id's last colon. */
  predicate OpenThread(runs: map<Key, Run>, k: Key, cp: string) {
    k in runs && LastSegment(ThreadId(k)) == cp && Open(runs[k])
  }

  ghost predicate FindsThread(runs: map<Key, Run>, cp: string, found: Option<Key>) {
    match found
    case None => forall k :: !OpenThread(runs, k, cp)
    case Some(k) =>
      OpenThread(runs, k, cp)
      && forall k' | OpenThread(runs, k', cp) :: runs[k'].values.impact.occurredAt <= runs[k].values.impact.occurredAt
  }

  method FindOpenCall(db: Database, cp: string) returns (found: Option<Key>)
    ensures FindsThread(db.runs, cp, found)
  {
    var threads := db.runs.Keys;
    var openCalls: seq<Key> := [];
    while threads != {}
      invariant threads <= db.runs.Keys
      invariant forall k :: OpenThread(db.runs, k, cp) ==> k in threads || k in openCalls
      invariant forall i :: 0 <= i < |openCalls| ==> OpenThread(db.runs, openCalls[i], cp)
      decreases threads
    {
      var k :| k in threads;
      threads := threads - {k};
      if LastSegment(ThreadId(k)) == cp && Open(db.runs[k]) {
        openCalls := openCalls + [k];
      }
    }
    if openCalls == [] {
      return None;
    }
    var latest := Latest(db, openCalls);
    return Some(latest);
  }

  /** `max` by the time of the call's own event. */
  method Latest(db: Database, calls: seq<Key>) returns (latest: Key)
    requires calls != [] && forall i :: 0 <= i < |calls| ==> calls[i] in db.runs
    ensures latest in calls
    ensures forall k :: k in calls ==> db.runs[k].values.impact.occurredAt <= db.runs[latest].values.impact.occurredAt
  {
    latest := calls[0];
    for i := 1 to |calls|
      invariant latest in calls
      invariant forall j :: 0 <= j < i ==>
        db.runs[calls[j]].values.impact.occurredAt <= db.runs[latest].values.impact.occurredAt
    {
      if db.runs[calls[i]].values.impact.occurredAt > db.runs[latest].values.impact.occurredAt {
        latest := calls[i];
      }
    }
  }

  /** Among counterparties without a colon in their id, the search by thread id is the
      search by counterparty; an id with a colon is never found. */
  lemma FindsByCounterparty(runs: map<Key, Run>, cp: string, found: Option<Key>)
    requires forall k | k in runs :: ':' !in k.cp
    requires FindsThread(runs, cp, found)
    ensures Finds(runs, cp, found)
    ensures ':' in cp ==> found == None
  {
    hide Open;
    forall k | k in runs ensures LastSegment(ThreadId(k)) == cp <==> k.cp == cp {
      ThreadsOfCounterparty(k, cp);
    }
    assert forall k :: OpenThread(runs, k, cp) <==> OpenAt(runs, k, cp);
  }

  // ----- one dispatch -------------------------------------------------------------------------

  function Seen(runs: map<Key, Run>, found: Option<Key>): Option<(Key, Values)>
    requires found.Some? ==> found.value in runs
  {
    if found.Some? then Some((found.value, runs[found.value].values)) else None
  }

  function SeenState(runs: map<Key, Run>, found: Option<Key>): Option<Values>
    requires found.Some? ==> found.value in runs
  {
    if found.Some? then Some(runs[found.value].values) else None
  }

  function Outcome(cp: string, action: TriggerAction, key: Key, v: Values): TriggerOutcome {
    TriggerOutcome(
      cp, action, key,
      if v.breach.Some? then Some(v.breach.value.breached) else None,
      if v.breach.None? || v.materiality == Some(BelowMta) then None else Some(v.breach.value.callAmount))
  }

  /** An outcome reports a breach with an amount exactly when the run's call stands. */
  lemma OutcomeReportsStandingCall(cp: string, action: TriggerAction, key: Key, v: Values)
    ensures var o := Outcome(cp, action, key, v);
      o.breached == Some(true) && o.callAmount.Some? <==> Called(v)
    ensures Called(v) && v.approval == None ==> Outcome(cp, action, key, v).callAmount == Some(EffectiveAmount(v))
  {
  }

  /** How an invocation that rests as `r` ends for its caller. */
  function Finished(cp: string, action: TriggerAction, key: Key, r: Run, env: Env): Reply {
    if r.place.Raised? then Failed(if r.place.node in env.world.raises then env.nodeFault else Business)
    else if env.after.Some? then Failed(env.after.value)
    else Done(Outcome(cp, action, key, r.values))
  }

  /** What a dispatch that found `found` answers. */
  function Answer(runs: map<Key, Run>, key: Key, trigger: Trigger, found: Option<Key>, env: Env): Reply
    requires found.Some? ==> found.value in runs
  {
    var runs' := Applied(runs, key, trigger, Seen(runs, found), env.world);
    if found.None? then Finished(key.cp, Started, key, runs'[key], env)
    else
      var k, v := found.value, runs[found.value].values;
      match Judge(Some(v), trigger, env.world)
      case AlreadyApplied => Done(Outcome(key.cp, Unchanged, k, v))
      case GateFailed => Failed(if v.csa.None? then Unexpected else Business)
      case ReevaluateCall => Finished(key.cp, Updated, k, runs'[k], env)
      case _ => if env.after.Some? then Failed(env.after.value) else Done(Outcome(key.cp, Unchanged, k, v))
  }

  /** The policy applied to an open call found, or to none. */
  ghost predicate AppliesPolicy(
      s: Tables, trigger: Trigger, cp: string, env: Env, runs': map<Key, Run>, result: Reply) {
    exists found :: FindsThread(s.runs, cp, found)
      && runs' == Applied(s.runs, Key(trigger.eventId, cp), trigger, Seen(s.runs, found), env.world)
      && result == Answer(s.runs, Key(trigger.eventId, cp), trigger, found, env)
  }

  /** One dispatch of `trigger` for `cp`: busy and without effect while another holds the
      lease; otherwise, unless an error comes first, the policy applied to the open call
      found. No lease is left, unless deleting its row fails. */
  ghost predicate Dispatches(s: Tables, trigger: Trigger, cp: string, env: Env, s': Tables, result: Reply) {
    if env.trouble == NoLease then s' == s && result == Failed(Unexpected)
    else if !LeaseFree(s.rows, cp, env.world.now) then s' == s && result == Busy
    else if env.trouble.BeforeRun? then s' == s.(rows := s.rows - {Lease(cp)}) && result == Failed(env.trouble.fault)
    else if env.trouble == NoRelease then
      s'.rows == s.rows[Lease(cp) := env.world.now] && result == Failed(Unexpected)
      && exists answer :: AppliesPolicy(s, trigger, cp, env, s'.runs, answer)
    else s'.rows == s.rows - {Lease(cp)} && AppliesPolicy(s, trigger, cp, env, s'.runs, result)
  }

  method DispatchTrigger(db: Database, trigger: Trigger, cp: string, env: Env) returns (result: Reply)
    modifies db
    ensures Dispatches(old(db.Now()), trigger, cp, env, db.Now(), result)
  {
    hide RunOk, Start, Reevaluate, IntradayGate, Applied, Answer, FindsThread;
    if env.trouble == NoLease {
      return Failed(Unexpected);
    }
    var taken := TakeLease(db, cp, env.world.now);
    if !taken {
      return Busy;
    }
    if env.trouble.BeforeRun? {
      db.Delete(Lease(cp));
      assert db.rows == old(db.rows) - {Lease(cp)};
      return Failed(env.trouble.fault);
    }
    ghost var found: Option<Key>;
    result, found := DispatchLeased(db, trigger, cp, env);
    assert AppliesPolicy(old(db.Now()), trigger, cp, env, db.runs, result);
    if env.trouble == NoRelease {
      return Failed(Unexpected);
    }
    db.Delete(Lease(cp));
    assert db.rows == old(db.rows) - {Lease(cp)};
  }

  method DispatchLeased(db: Database, trigger: Trigger, cp: string, env: Env)
    returns (result: Reply, ghost found: Option<Key>)
    modifies db`runs
    ensures FindsThread(old(db.runs), cp, found)
    ensures db.runs == Applied(old(db.runs), Key(trigger.eventId, cp), trigger, Seen(old(db.runs), found), env.world)
    ensures result == Answer(old(db.runs), Key(trigger.eventId, cp), trigger, found, env)
  {
    hide RunOk, Start, Reevaluate, IntradayGate, Open;
    var key := Key(trigger.eventId, cp);
    var openCall := FindOpenCall(db, cp);
    found := openCall;
    if openCall.None? {
      db.runs := db.runs[key := Start(Lookup(db.runs, key), trigger, cp, env.world)];
      return Finished(cp, Started, key, db.runs[key], env), found;
    }
    var k := openCall.value;
    var v := db.runs[k].values;
    if trigger.eventId == v.impact.eventId || trigger.eventId in v.updatedBy {
      return Done(Outcome(cp, Unchanged, k, v)), found;
    }
    if trigger.moves != [] {
      var gate := IntradayGate(v, trigger, env.world);
      if gate == GateFailed {
        return Failed(if v.csa.None? then Unexpected else Business), found;
      }
      if gate == BelowGate {
        return if env.after.Some? then Failed(env.after.value) else Done(Outcome(cp, Unchanged, k, v)), found;
      }
    }
    if OpenStage(v) != Some(AwaitingApproval) {
      return if env.after.Some? then Failed(env.after.value) else Done(Outcome(cp, Unchanged, k, v)), found;
    }
    db.runs := db.runs[k := Reevaluate(db.runs[k], trigger, v.updatedBy + [trigger.eventId], env.world)];
    result := Finished(cp, Updated, k, db.runs[k], env);
  }

  // ----- what a dispatch keeps --------------------------------------------------------------------

  /** Applying the policy to the open call found, or to a thread nobody signed, keeps every
      run sound, every counterparty at one open call, and every unsigned run unsigned. */
  lemma AppliedKeepsOk(s: Tables, key: Key, trigger: Trigger, found: Option<Key>, w: World)
    requires TablesOk(s) && Unsigned(Lookup(s.runs, key)) && ':' !in key.cp && FindsThread(s.runs, key.cp, found)
    ensures var runs' := Applied(s.runs, key, trigger, Seen(s.runs, found), w);
      && (forall k | k in runs' :: RunOk(runs'[k]) && ':' !in k.cp)
      && (forall cp :: AtMostOneOpen(runs', cp))
      && (forall k | Unsigned(Lookup(s.runs, k)) :: Unsigned(Lookup(runs', k)))
  {
    hide RunOk, Start, Reevaluate, IntradayGate, Open, OpenStage, Called;
    FindsByCounterparty(s.runs, key.cp, found);
    var runs' := Applied(s.runs, key, trigger, Seen(s.runs, found), w);
    var verdict := Judge(SeenState(s.runs, found), trigger, w);
    if verdict == StartNew {
      NoOpenCallIsStartable(s.runs, key);
      StartKeepsOk(Lookup(s.runs, key), trigger, key.cp, w);
      OneRewritten(s.runs, key, Start(Lookup(s.runs, key), trigger, key.cp, w), runs');
    } else if verdict == ReevaluateCall {
      var k := found.value;
      var updated := s.runs[k].values.updatedBy + [trigger.eventId];
      assert |updated| > 0 && RunOk(s.runs[k]);
      ReevaluateOkExactlyWhenUnsigned(s.runs[k], trigger, updated, w);
      ReevaluationSignsNothing(s.runs[k], trigger, updated, w);
      assert OpenAt(s.runs, k, k.cp) && AtMostOneOpen(s.runs, k.cp);
      OneRewritten(s.runs, k, Reevaluate(s.runs[k], trigger, updated, w), runs');
    }
  }

  lemma OneRewritten(runs: map<Key, Run>, k: Key, r': Run, runs': map<Key, Run>)
    requires runs' == runs[k := r'] && forall cp :: AtMostOneOpen(runs, cp)
    requires forall k' | OpenAt(runs, k', k.cp) :: k' == k
    ensures forall cp :: AtMostOneOpen(runs', cp)
  {
    hide Open;
    forall cp ensures AtMostOneOpen(runs', cp) {
      assert AtMostOneOpen(runs, cp);
      forall k1, k2 | OpenAt(runs', k1, cp) && OpenAt(runs', k2, cp) ensures k1 == k2 {
        assert k1 != k ==> OpenAt(runs, k1, cp);
        assert k2 != k ==> OpenAt(runs, k2, cp);
      }
    }
  }

  /** A claimed dispatch keeps the tables in order: one open call per counterparty, every
      run sound, unclaimed runs unsigned; and a busy one has no effect. */
  lemma DispatchKeepsOk(s: Tables, trigger: Trigger, cp: string, env: Env, s': Tables, result: Reply)
    requires TablesOk(s) && ':' !in cp && RunClaim(Key(trigger.eventId, cp)) in s.rows
    requires Unsigned(Lookup(s.runs, Key(trigger.eventId, cp)))
    requires Dispatches(s, trigger, cp, env, s', result)
    ensures TablesOk(s') && Unsigned(Lookup(s'.runs, Key(trigger.eventId, cp)))
    ensures result == Busy ==> s' == s
  {
    hide RunOk, AppliesPolicy, Open, Unsigned;
    if env.trouble != NoLease && LeaseFree(s.rows, cp, env.world.now) && !env.trouble.BeforeRun? {
      var answer :|
        AppliesPolicy(s, trigger, cp, env, s'.runs, answer) && (env.trouble != NoRelease ==> answer == result);
      PolicyKeepsOk(s, trigger, cp, env, s'.runs, answer);
    }
  }

  lemma PolicyKeepsOk(s: Tables, trigger: Trigger, cp: string, env: Env, runs': map<Key, Run>, result: Reply)
    requires TablesOk(s) && ':' !in cp && Unsigned(Lookup(s.runs, Key(trigger.eventId, cp)))
    requires AppliesPolicy(s, trigger, cp, env, runs', result)
    ensures (forall k | k in runs' :: RunOk(runs'[k]) && ':' !in k.cp) && (forall c :: AtMostOneOpen(runs', c))
    ensures forall k | Unsigned(Lookup(s.runs, k)) :: Unsigned(Lookup(runs', k))
    ensures result != Busy
  {
    hide RunOk, Applied, Answer, Open, Unsigned;
    var key := Key(trigger.eventId, cp);
    var found :| FindsThread(s.runs, cp, found)
      && runs' == Applied(s.runs, key, trigger, Seen(s.runs, found), env.world)
      && result == Answer(s.runs, key, trigger, found, env);
    AppliedKeepsOk(s, key, trigger, found, env.world);
    AnswerIsNotBusy(s.runs, key, trigger, found, env);
  }

  lemma AnswerIsNotBusy(runs: map<Key, Run>, key: Key, trigger: Trigger, found: Option<Key>, env: Env)
    requires found.Some? ==> found.value in runs
    ensures Answer(runs, key, trigger, found, env) != Busy
  {
    hide Start, Reevaluate, IntradayGate;
  }
}
