/** Fanning one impact set out to its counterparties (src/streaming/impact_consumer.py):
    claim each (event, counterparty), dispatch it, and keep or give back the claim. */
module ImpactConsumer {
  import opened Wrappers
  import opened MarginRun
  import opened MarginPolicy
  import opened Store
  import opened Dispatch

  datatype Impact = Impact(trigger: Trigger, cps: seq<string>)

  /** What happened to one counterparty. The last three are errors outside the dispatch: the
      claim could not be taken, the graph could not be built, or the claim could not be
      given back. */
  datatype Turn =
    | Skipped | Handled(outcome: TriggerOutcome) | Held | WasBusy | Broke
    | Unclaimed | Unbuilt | Unreleased

  /** What one pass meets. The graph is built once a call, after the call's first claim. */
  datatype Entry = Entry(env: Env, claimFails: bool, buildFails: bool, releaseFails: bool)

  datatype FanOutResult = Returned(outcomes: seq<TriggerOutcome>) | BusyError(cps: seq<string>) | Propagated

  function ClaimOf(impact: Impact, cp: string): RowId {
    RunClaim(Key(impact.trigger.eventId, cp))
  }

  /** One pass of the loop; `built` says whether the call has its graph. */
  ghost predicate Takes(s: Tables, built: bool, impact: Impact, cp: string, e: Entry, s': Tables, turn: Turn) {
    var claim := ClaimOf(impact, cp);
    var claimed := s.(rows := s.rows[claim := e.env.world.now]);
    if e.claimFails then s' == s && turn == Unclaimed
    else if claim in s.rows then s' == s && turn == Skipped
    else if !built && e.buildFails then s' == claimed && turn == Unbuilt
    else
      exists mid: Tables, result: Reply ::
        Dispatches(claimed, impact.trigger, cp, e.env, mid, result)
        && turn == (if Releases(TurnOf(result)) && e.releaseFails then Unreleased else TurnOf(result))
        && s' == if Releases(turn) then mid.(rows := mid.rows - {claim}) else mid
  }

  function TurnOf(result: Reply): Turn {
    match result
    case Done(outcome) => Handled(outcome)
    case Busy => WasBusy
    case Failed(Business) => Held
    case Failed(Unexpected) => Broke
  }

  /** The claim just taken is given back. */
  predicate Releases(turn: Turn) {
    turn == WasBusy || turn == Broke
  }

  /** An error that propagates. */
  predicate Breaks(turn: Turn) {
    turn == Broke || turn == Unclaimed || turn == Unbuilt || turn == Unreleased
  }

  predicate SkippedUpTo(turns: seq<Turn>, n: nat) {
    forall i :: 0 <= i < n && i < |turns| ==> turns[i] == Skipped
  }

  /** A whole call: the tables between the passes, stopping at the first error that is not held. */
  ghost predicate FanOut(trace: seq<Tables>, turns: seq<Turn>, impact: Impact, es: seq<Entry>) {
    && |trace| == |turns| + 1 && |turns| <= |impact.cps| == |es|
    && (forall i :: 0 <= i < |turns| ==>
          Takes(trace[i], !SkippedUpTo(turns, i), impact, impact.cps[i], es[i], trace[i + 1], turns[i]))
    && (forall i :: 0 <= i < |turns| && Breaks(turns[i]) ==> i == |turns| - 1)
    && (|turns| < |impact.cps| ==> turns != [] && Breaks(turns[|turns| - 1]))
  }

  function Outcomes(turns: seq<Turn>): seq<TriggerOutcome> {
    if turns == [] then []
    else
      var rest, last := turns[..|turns| - 1], turns[|turns| - 1];
      if last.Handled? then Outcomes(rest) + [last.outcome] else Outcomes(rest)
  }

  function BusyOnes(cps: seq<string>, turns: seq<Turn>): seq<string>
    requires |turns| <= |cps|
  {
    if turns == [] then []
    else
      var n := |turns| - 1;
      if turns[n] == WasBusy then BusyOnes(cps, turns[..n]) + [cps[n]] else BusyOnes(cps, turns[..n])
  }

  /** What the caller of a call with these passes sees. */
  function Verdict(cps: seq<string>, turns: seq<Turn>): FanOutResult
    requires |turns| <= |cps|
  {
    if turns != [] && Breaks(turns[|turns| - 1]) then Propagated
    else if BusyOnes(cps, turns) != [] then BusyError(BusyOnes(cps, turns))
    else Returned(Outcomes(turns))
  }

  /** handle_impact: `trace` and `turns` record the passes it made. */
  method HandleImpact(db: Database, impact: Impact, es: seq<Entry>)
    returns (result: FanOutResult, ghost trace: seq<Tables>, ghost turns: seq<Turn>)
    requires |es| == |impact.cps|
    modifies db
    ensures FanOut(trace, turns, impact, es) && trace[0] == old(db.Now()) && trace[|turns|] == db.Now()
    ensures result == Verdict(impact.cps, turns)
  {
    hide Dispatches, Takes, Outcomes, BusyOnes;
    NothingYet(impact.cps);
    trace, turns := [db.Now()], [];
    var outcomes: seq<TriggerOutcome>, busy: seq<string>, built := [], [], false;
    for i := 0 to |impact.cps|
      invariant |trace| == i + 1 && |turns| == i && trace[0] == old(db.Now()) && trace[i] == db.Now()
      invariant forall j :: 0 <= j < i ==>
        Takes(trace[j], !SkippedUpTo(turns, j), impact, impact.cps[j], es[j], trace[j + 1], turns[j])
      invariant forall j :: 0 <= j < i ==> !Breaks(turns[j])
      invariant outcomes == Outcomes(turns) && busy == BusyOnes(impact.cps, turns) && built == !SkippedUpTo(turns, i)
    {
      var cp := impact.cps[i];
      var turn := TakeTurn(db, built, impact, cp, es[i]);
      OneTurnMore(impact.cps, turns, turn);
      SkippedSoFar(turns, turn);
      trace, turns := trace + [db.Now()], turns + [turn];
      if Breaks(turn) {
        return Propagated, trace, turns;
      }
      built := built || turn != Skipped;
      match turn {
        case Handled(outcome) => outcomes := outcomes + [outcome];
        case WasBusy => busy := busy + [cp];
        case _ =>
      }
    }
    result := if busy != [] then BusyError(busy) else Returned(outcomes);
  }

  lemma SkippedSoFar(turns: seq<Turn>, turn: Turn)
    ensures forall n: nat :: n <= |turns| ==> SkippedUpTo(turns + [turn], n) == SkippedUpTo(turns, n)
    ensures SkippedUpTo(turns + [turn], |turns| + 1) <==> SkippedUpTo(turns, |turns|) && turn == Skipped
  {
    var longer := turns + [turn];
    assert forall i :: 0 <= i < |turns| ==> longer[i] == turns[i];
    assert longer[|turns|] == turn;
  }

  lemma NothingYet(cps: seq<string>)
    ensures Outcomes([]) == [] && BusyOnes(cps, []) == []
  {
  }

  lemma OneTurnMore(cps: seq<string>, turns: seq<Turn>, turn: Turn)
    requires |turns| < |cps|
    ensures Outcomes(turns + [turn]) == if turn.Handled? then Outcomes(turns) + [turn.outcome] else Outcomes(turns)
    ensures BusyOnes(cps, turns + [turn])
         == if turn == WasBusy then BusyOnes(cps, turns) + [cps[|turns|]] else BusyOnes(cps, turns)
  {
    assert (turns + [turn])[..|turns|] == turns;
  }

  method TakeTurn(db: Database, built: bool, impact: Impact, cp: string, e: Entry) returns (turn: Turn)
    modifies db
    ensures Takes(old(db.Now()), built, impact, cp, e, db.Now(), turn)
  {
    hide Dispatches;
    if e.claimFails {
      return Unclaimed;
    }
    var claim := ClaimOf(impact, cp);
    var claimed := db.Insert(claim, e.env.world.now);
    if !claimed {
      return Skipped;
    }
    if !built && e.buildFails {
      return Unbuilt;
    }
    var result := DispatchTrigger(db, impact.trigger, cp, e.env);
    ghost var mid := db.Now();
    assert Dispatches(
      old(db.Now()).(rows := old(db.rows)[claim := e.env.world.now]), impact.trigger, cp, e.env, mid, result);
    turn := TurnOf(result);
    if Releases(turn) {
      if e.releaseFails {
        return Unreleased;
      }
      db.Delete(claim);
      assert db.Now() == mid.(rows := mid.rows - {claim});
    }
  }

  // ----- one pass --------------------------------------------------------------------------------

  /** Nothing but another's lease stands in the way of the dispatch. */
  predicate Reaches(built: bool, e: Entry) {
    !e.claimFails && (built || !e.buildFails) && e.env.trouble != NoLease
  }

  /** What a pass does to the rows: only its own claim and its counterparty's lease can
      change, and its claim is there afterwards unless it could not take it, or took it and
      gave it back. */
  lemma TurnOnRows(s: Tables, built: bool, impact: Impact, cp: string, e: Entry, s': Tables, turn: Turn)
    requires Takes(s, built, impact, cp, e, s', turn)
    ensures forall r | r != ClaimOf(impact, cp) && r != Lease(cp) ::
      (r in s'.rows <==> r in s.rows) && (r in s.rows ==> s'.rows[r] == s.rows[r])
    ensures turn != Unclaimed ==> (ClaimOf(impact, cp) in s'.rows <==> !Releases(turn))
    ensures turn == Skipped <==> ClaimOf(impact, cp) in s.rows && !e.claimFails
    ensures turn == WasBusy <==>
      ClaimOf(impact, cp) !in s.rows && !LeaseFree(s.rows, cp, e.env.world.now) && Reaches(built, e) && !e.releaseFails
    ensures turn == WasBusy || turn == Skipped || turn == Unclaimed ==> s' == s
    ensures ClaimOf(impact, cp) in s.rows ==> turn == Skipped || turn == Unclaimed
    ensures turn == Unbuilt ==> !built && s'.runs == s.runs
  {
    var claim := ClaimOf(impact, cp);
    hide AppliesPolicy;
    if !e.claimFails && claim !in s.rows && (built || !e.buildFails) {
      var claimed := s.(rows := s.rows[claim := e.env.world.now]);
      var mid: Tables, result: Reply :|
        Dispatches(claimed, impact.trigger, cp, e.env, mid, result)
        && turn == (if Releases(TurnOf(result)) && e.releaseFails then Unreleased else TurnOf(result))
        && s' == if Releases(turn) then mid.(rows := mid.rows - {claim}) else mid;
      assert LeaseFree(claimed.rows, cp, e.env.world.now) == LeaseFree(s.rows, cp, e.env.world.now);
      DispatchIsBusy(claimed, impact.trigger, cp, e.env, mid, result);
      if turn == WasBusy {
        assert s'.rows == s.rows;
      }
    }
  }

  lemma DispatchIsBusy(s: Tables, trigger: Trigger, cp: string, env: Env, s': Tables, result: Reply)
    requires Dispatches(s, trigger, cp, env, s', result)
    ensures result == Busy <==> env.trouble != NoLease && !LeaseFree(s.rows, cp, env.world.now)
  {
    hide Answer, Applied;
    if env.trouble == Untroubled && LeaseFree(s.rows, cp, env.world.now) {
      var found :| FindsThread(s.runs, cp, found)
        && s'.runs == Applied(s.runs, Key(trigger.eventId, cp), trigger, Seen(s.runs, found), env.world)
        && result == Answer(s.runs, Key(trigger.eventId, cp), trigger, found, env);
      AnswerIsNotBusy(s.runs, Key(trigger.eventId, cp), trigger, found, env);
    }
  }

  /** A pass keeps the tables in order, whatever it raises, re-evaluates, gives back or
      leaves standing. */
  lemma TurnKeepsOk(s: Tables, built: bool, impact: Impact, cp: string, e: Entry, s': Tables, turn: Turn)
    requires TablesOk(s) && ':' !in cp && Takes(s, built, impact, cp, e, s', turn)
    ensures TablesOk(s')
  {
    hide RunOk, Unsigned, Dispatches, Open;
    var key, claim := Key(impact.trigger.eventId, cp), ClaimOf(impact, cp);
    if !e.claimFails && claim !in s.rows {
      var claimed := s.(rows := s.rows[claim := e.env.world.now]);
      assert TablesOk(claimed);
      if built || !e.buildFails {
        var mid: Tables, result: Reply :|
          Dispatches(claimed, impact.trigger, cp, e.env, mid, result)
          && turn == (if Releases(TurnOf(result)) && e.releaseFails then Unreleased else TurnOf(result))
          && s' == if Releases(turn) then mid.(rows := mid.rows - {claim}) else mid;
        assert Unsigned(Lookup(claimed.runs, key));
        DispatchKeepsOk(claimed, impact.trigger, cp, e.env, mid, result);
        assert forall k | RunClaim(k) !in s'.rows :: k == key || RunClaim(k) !in mid.rows;
      }
    }
  }

  // ----- the whole call --------------------------------------------------------------------------

  /** Pass `i` of a call, as a pass of its own. */
  lemma PassOnRows(trace: seq<Tables>, turns: seq<Turn>, impact: Impact, es: seq<Entry>, i: nat)
    requires FanOut(trace, turns, impact, es) && i < |turns|
    ensures var s, s', claim := trace[i], trace[i + 1], ClaimOf(impact, impact.cps[i]);
      && (forall r | r != claim && r != Lease(impact.cps[i]) :: r in s'.rows <==> r in s.rows)
      && (turns[i] != Unclaimed ==> (claim in s'.rows <==> !Releases(turns[i])))
      && (turns[i] == Skipped <==> claim in s.rows && !es[i].claimFails)
      && (turns[i] == WasBusy || turns[i] == Skipped || turns[i] == Unclaimed ==> s' == s)
      && (claim in s.rows ==> turns[i] == Skipped || turns[i] == Unclaimed)
      && (turns[i] == Unbuilt ==> SkippedUpTo(turns, i) && s'.runs == s.runs)
  {
    hide Takes, ClaimOf;
    TurnOnRows(trace[i], !SkippedUpTo(turns, i), impact, impact.cps[i], es[i], trace[i + 1], turns[i]);
  }

  lemma {:induction false} ClaimsStand(
      trace: seq<Tables>, turns: seq<Turn>, impact: Impact, es: seq<Entry>, i: nat, j: nat, k: Key)
    requires FanOut(trace, turns, impact, es) && i <= j <= |turns| && RunClaim(k) in trace[i].rows
    ensures RunClaim(k) in trace[j].rows
    decreases j - i
  {
    hide FanOut;
    if i < j {
      Bounds(trace, turns, impact, es);
      PassOnRows(trace, turns, impact, es, i);
      ClaimsStand(trace, turns, impact, es, i + 1, j, k);
    }
  }

  lemma Bounds(trace: seq<Tables>, turns: seq<Turn>, impact: Impact, es: seq<Entry>)
    requires FanOut(trace, turns, impact, es)
    ensures |trace| == |turns| + 1 && |turns| <= |impact.cps| == |es|
    ensures forall i :: 0 <= i < |turns| && Breaks(turns[i]) ==> i == |turns| - 1
    ensures |turns| < |impact.cps| ==> turns != [] && Breaks(turns[|turns| - 1])
  {
    hide Takes;
  }

  lemma {:induction false} BusyOnesAre(cps: seq<string>, turns: seq<Turn>, cp: string)
    requires |turns| <= |cps|
    ensures cp in BusyOnes(cps, turns) <==> exists i :: 0 <= i < |turns| && turns[i] == WasBusy && cps[i] == cp
  {
    if turns != [] {
      var n := |turns| - 1;
      BusyOnesAre(cps, turns[..n], cp);
      assert forall i :: 0 <= i < n ==> turns[..n][i] == turns[i];
    }
  }

  /** A normal verdict leaves no pass busy or broken off. */
  lemma NormalTurns(trace: seq<Tables>, turns: seq<Turn>, impact: Impact, es: seq<Entry>)
    requires FanOut(trace, turns, impact, es) && |turns| <= |impact.cps| && Verdict(impact.cps, turns).Returned?
    ensures |turns| == |impact.cps| && forall i :: 0 <= i < |turns| ==> turns[i] != WasBusy && !Breaks(turns[i])
  {
    Bounds(trace, turns, impact, es);
    hide FanOut, Outcomes;
    forall i | 0 <= i < |turns| ensures turns[i] != WasBusy && !Breaks(turns[i]) {
      BusyOnesAre(impact.cps, turns, impact.cps[i]);
    }
  }

  /** Normal return of the fan-out: every counterparty is claimed. */
  lemma NormalReturnClaimsAll(trace: seq<Tables>, turns: seq<Turn>, impact: Impact, es: seq<Entry>, i: nat)
    requires FanOut(trace, turns, impact, es) && |turns| <= |impact.cps| && i < |impact.cps|
    requires Verdict(impact.cps, turns).Returned?
    ensures |turns| == |impact.cps| && |trace| == |turns| + 1
    ensures ClaimOf(impact, impact.cps[i]) in trace[|turns|].rows
  {
    Bounds(trace, turns, impact, es);
    NormalTurns(trace, turns, impact, es);
    hide FanOut, Takes, Outcomes, Dispatches, Verdict;
    PassOnRows(trace, turns, impact, es, i);
    ClaimsStand(trace, turns, impact, es, i + 1, |turns|, Key(impact.trigger.eventId, impact.cps[i]));
  }

  /** The pass leaves its claim standing. */
  predicate Stands(turn: Turn) {
    !Releases(turn) && turn != Unclaimed
  }

  /** A pass and the claim of any counterparty. */
  lemma PassOnClaim(trace: seq<Tables>, turns: seq<Turn>, impact: Impact, es: seq<Entry>, i: nat, cp: string)
    requires FanOut(trace, turns, impact, es) && i < |turns|
    ensures |trace| == |turns| + 1 && |turns| <= |impact.cps|
    ensures ClaimOf(impact, cp) in trace[i + 1].rows <==>
      ClaimOf(impact, cp) in trace[i].rows || (impact.cps[i] == cp && Stands(turns[i]))
  {
    Bounds(trace, turns, impact, es);
    hide FanOut, ClaimOf;
    PassOnRows(trace, turns, impact, es, i);
    ClaimsAreApart(impact, impact.cps[i], cp);
  }

  /** Some pass for `cp`, of the first `n`, left its claim standing. */
  predicate LeftStanding(cps: seq<string>, turns: seq<Turn>, n: nat, cp: string)
    requires n <= |turns| <= |cps|
  {
    exists i :: 0 <= i < n && cps[i] == cp && Stands(turns[i])
  }

  /** `cp`'s claim after the passes up to `n` stands exactly when it was there before or some
      pass left it standing. */
  lemma {:induction false} ClaimAfter(
      trace: seq<Tables>, turns: seq<Turn>, impact: Impact, es: seq<Entry>, n: nat, cp: string)
    requires FanOut(trace, turns, impact, es) && n <= |turns|
    ensures |trace| == |turns| + 1 && |turns| <= |impact.cps|
    ensures ClaimOf(impact, cp) in trace[n].rows <==>
      ClaimOf(impact, cp) in trace[0].rows || LeftStanding(impact.cps, turns, n, cp)
  {
    Bounds(trace, turns, impact, es);
    hide FanOut, ClaimOf, LeftStanding;
    if n > 0 {
      ClaimAfter(trace, turns, impact, es, n - 1, cp);
      PassOnClaim(trace, turns, impact, es, n - 1, cp);
      OneMoreStanding(impact.cps, turns, n, cp);
    } else {
      NoneStanding(impact.cps, turns, cp);
    }
  }

  lemma NoneStanding(cps: seq<string>, turns: seq<Turn>, cp: string)
    requires |turns| <= |cps|
    ensures !LeftStanding(cps, turns, 0, cp)
  {
  }

  lemma OneMoreStanding(cps: seq<string>, turns: seq<Turn>, n: nat, cp: string)
    requires 0 < n <= |turns| <= |cps|
    ensures LeftStanding(cps, turns, n, cp) <==>
      LeftStanding(cps, turns, n - 1, cp) || (cps[n - 1] == cp && Stands(turns[n - 1]))
  {
    hide Stands;
  }

  lemma ClaimsAreApart(impact: Impact, cp: string, cp': string)
    ensures cp != cp' ==> ClaimOf(impact, cp) != ClaimOf(impact, cp')
    ensures ClaimOf(impact, cp') != Lease(cp)
  {
  }

  predicate BusyOnce(cps: seq<string>, turns: seq<Turn>, cp: string)
    requires |turns| == |cps|
  {
    exists i :: 0 <= i < |turns| && cps[i] == cp && turns[i] == WasBusy
  }

  predicate BusyAlways(cps: seq<string>, turns: seq<Turn>, cp: string)
    requires |turns| == |cps|
  {
    forall i :: 0 <= i < |turns| && cps[i] == cp ==> turns[i] == WasBusy
  }

  /** A busy error, on a list that may name a counterparty more than once: it names those
      that were busy at some entry, and leaves unclaimed those that were busy at every one -
      the same, unless an entry is repeated. */
  lemma BusyErrorReleasesExactlyBusy(trace: seq<Tables>, turns: seq<Turn>, impact: Impact, es: seq<Entry>, cp: string)
    requires FanOut(trace, turns, impact, es) && |turns| <= |impact.cps| && cp in impact.cps
    requires Verdict(impact.cps, turns).BusyError?
    ensures |turns| == |impact.cps| && |trace| == |turns| + 1
    ensures cp in Verdict(impact.cps, turns).cps <==> BusyOnce(impact.cps, turns, cp)
    ensures ClaimOf(impact, cp) !in trace[|turns|].rows <==> BusyAlways(impact.cps, turns, cp)
    ensures (forall i, j :: 0 <= i < j < |impact.cps| ==> impact.cps[i] != impact.cps[j]) ==>
      (BusyOnce(impact.cps, turns, cp) <==> BusyAlways(impact.cps, turns, cp))
  {
    Bounds(trace, turns, impact, es);
    hide FanOut, ClaimOf, Outcomes;
    BusyOnesAre(impact.cps, turns, cp);
    StandsUnlessBusy(impact.cps, turns, cp);
    OnceIsAlways(impact.cps, turns, cp);
    hide BusyOnce, BusyAlways, LeftStanding, BusyOnes;
    ClaimAfter(trace, turns, impact, es, |turns|, cp);
    if BusyAlways(impact.cps, turns, cp) {
      NotClaimedBefore(trace, turns, impact, es, cp);
    }
  }

  lemma StandsUnlessBusy(cps: seq<string>, turns: seq<Turn>, cp: string)
    requires |turns| == |cps| && forall i :: 0 <= i < |turns| ==> !Breaks(turns[i])
    ensures LeftStanding(cps, turns, |turns|, cp) <==> !BusyAlways(cps, turns, cp)
  {
  }

  lemma OnceIsAlways(cps: seq<string>, turns: seq<Turn>, cp: string)
    requires |turns| == |cps| && cp in cps
    ensures (forall i, j :: 0 <= i < j < |cps| ==> cps[i] != cps[j]) ==>
      (BusyOnce(cps, turns, cp) <==> BusyAlways(cps, turns, cp))
  {
  }

  /** An entry is busy exactly when nobody has claimed it and another trigger holds the lease,
      and no error came before the lease or on giving the claim back. */
  lemma BusyEntry(trace: seq<Tables>, turns: seq<Turn>, impact: Impact, es: seq<Entry>, i: nat)
    requires FanOut(trace, turns, impact, es) && i < |turns|
    ensures turns[i] == WasBusy <==>
      && ClaimOf(impact, impact.cps[i]) !in trace[i].rows
      && !LeaseFree(trace[i].rows, impact.cps[i], es[i].env.world.now)
      && Reaches(!SkippedUpTo(turns, i), es[i]) && !es[i].releaseFails
  {
    hide Takes, ClaimOf;
    TurnOnRows(trace[i], !SkippedUpTo(turns, i), impact, impact.cps[i], es[i], trace[i + 1], turns[i]);
  }

  lemma NotClaimedBefore(trace: seq<Tables>, turns: seq<Turn>, impact: Impact, es: seq<Entry>, cp: string)
    requires FanOut(trace, turns, impact, es) && cp in impact.cps && |turns| == |impact.cps|
    requires BusyAlways(impact.cps, turns, cp)
    ensures |trace| > 0 && ClaimOf(impact, cp) !in trace[0].rows
  {
    Bounds(trace, turns, impact, es);
    hide FanOut;
    var i :| 0 <= i < |impact.cps| && impact.cps[i] == cp;
    PassOnRows(trace, turns, impact, es, i);
    if ClaimOf(impact, cp) in trace[0].rows {
      ClaimsStand(trace, turns, impact, es, 0, i, Key(impact.trigger.eventId, cp));
    }
  }

  /** An error that propagates: the claim it stopped at, if it was taken, stands exactly when
      the graph could not be built - before the call's first dispatch, with nothing
      dispatched - or the claim could not be given back. The earlier claims stand, but for
      those of busy counterparties. */
  lemma PropagatedClaimStandsExactlyWhen(trace: seq<Tables>, turns: seq<Turn>, impact: Impact, es: seq<Entry>)
    requires FanOut(trace, turns, impact, es) && |turns| <= |impact.cps| && Verdict(impact.cps, turns) == Propagated
    ensures turns != [] && |trace| == |turns| + 1
    ensures var n := |turns| - 1; var claim := ClaimOf(impact, impact.cps[n]);
      && (turns[n] == Unclaimed ==> trace[n + 1] == trace[n])
      && (turns[n] != Unclaimed ==>
            (claim in trace[n + 1].rows <==> turns[n] == Unbuilt || turns[n] == Unreleased))
      && (turns[n] == Unbuilt ==> SkippedUpTo(turns, n) && trace[n + 1].runs == trace[n].runs)
    ensures forall i :: 0 <= i < |turns| - 1 && turns[i] != WasBusy ==>
      ClaimOf(impact, impact.cps[i]) in trace[|turns|].rows
  {
    Bounds(trace, turns, impact, es);
    hide FanOut, Outcomes, BusyOnes;
    var n := |turns| - 1;
    PassOnRows(trace, turns, impact, es, n);
    forall i | 0 <= i < n && turns[i] != WasBusy ensures ClaimOf(impact, impact.cps[i]) in trace[|turns|].rows {
      PassOnRows(trace, turns, impact, es, i);
      ClaimsStand(trace, turns, impact, es, i + 1, |turns|, Key(impact.trigger.eventId, impact.cps[i]));
    }
  }

  /** Once dispatched or held, an (event, counterparty) is only ever skipped: a repeated
      entry of the same call leaves both tables as they are. */
  lemma DispatchedOnlyOnce(trace: seq<Tables>, turns: seq<Turn>, impact: Impact, es: seq<Entry>, i: nat, j: nat)
    requires FanOut(trace, turns, impact, es) && i < j < |turns| <= |impact.cps| && impact.cps[i] == impact.cps[j]
    requires turns[i].Handled? || turns[i] == Held
    ensures (turns[j] == Skipped || turns[j] == Unclaimed) && |trace| == |turns| + 1 && trace[j + 1] == trace[j]
  {
    Bounds(trace, turns, impact, es);
    hide FanOut;
    PassOnRows(trace, turns, impact, es, i);
    ClaimsStand(trace, turns, impact, es, i + 1, j, Key(impact.trigger.eventId, impact.cps[i]));
    PassOnRows(trace, turns, impact, es, j);
  }

  /** Redelivery after a normal return changes nothing and reports nothing. */
  lemma {:induction false} RedeliveryIsNoOp(
      trace: seq<Tables>, turns: seq<Turn>, impact: Impact, es: seq<Entry>, n: nat)
    requires FanOut(trace, turns, impact, es) && n <= |turns| && |trace| > 0
    requires forall i :: 0 <= i < |impact.cps| ==> ClaimOf(impact, impact.cps[i]) in trace[0].rows
    ensures |trace| == |turns| + 1 && trace[n] == trace[0]
    ensures n > 0 ==> turns[n - 1] == Skipped || turns[n - 1] == Unclaimed
  {
    Bounds(trace, turns, impact, es);
    hide FanOut, ClaimOf;
    if n > 0 {
      RedeliveryIsNoOp(trace, turns, impact, es, n - 1);
      PassOnRows(trace, turns, impact, es, n - 1);
    }
  }

  lemma PassTakes(trace: seq<Tables>, turns: seq<Turn>, impact: Impact, es: seq<Entry>, i: nat)
    requires FanOut(trace, turns, impact, es) && i < |turns|
    ensures Takes(trace[i], !SkippedUpTo(turns, i), impact, impact.cps[i], es[i], trace[i + 1], turns[i])
  {
    hide Takes, SkippedUpTo;
  }

  /** The whole fan-out keeps the tables in order: afterwards no counterparty has two open
      calls, however many it raised, updated or held. */
  lemma {:induction false} FanOutKeepsOk(trace: seq<Tables>, turns: seq<Turn>, impact: Impact, es: seq<Entry>, n: nat)
    requires FanOut(trace, turns, impact, es) && n <= |turns| && |trace| > 0 && TablesOk(trace[0])
    requires forall i :: 0 <= i < |impact.cps| ==> ':' !in impact.cps[i]
    ensures |trace| == |turns| + 1 && TablesOk(trace[n])
  {
    Bounds(trace, turns, impact, es);
    hide TablesOk, Takes, FanOut;
    if n > 0 {
      FanOutKeepsOk(trace, turns, impact, es, n - 1);
      var m := n - 1;
      PassTakes(trace, turns, impact, es, m);
      TurnKeepsOk(trace[m], !SkippedUpTo(turns, m), impact, impact.cps[m], es[m], trace[n], turns[m]);
    }
  }
}
