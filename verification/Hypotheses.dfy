/** The protocol's hypotheses are not only enough but needed: where one fails, steps that
    keep every hypothesis lead on to an unsound run or to two open calls. */
module Hypotheses {
  import opened Wrappers
  import opened MarginRun
  import opened MarginPolicy
  import opened Protocol

  /** What the protocol is for. */
  ghost predicate Sound(g: Global) {
    RunsOk(g) && OneOpenEach(g)
  }

  /** Steps that keep every hypothesis. */
  ghost predicate Guarded(g: Global, steps: seq<Action>, g': Global)
    decreases |steps|
  {
    if steps == [] then g' == g
    else
      Enabled(g, steps[0]) && Next(g, steps[0], Effect(g, steps[0]))
      && Guarded(Effect(g, steps[0]), steps[1..], g')
  }

  lemma {:induction false} GuardedKeepsInv(g: Global, steps: seq<Action>, g': Global)
    requires Inv(g) && Guarded(g, steps, g')
    ensures Inv(g')
    decreases |steps|
  {
    hide Inv, Effect, Enabled, Next;
    if steps != [] {
      NextKeepsInv(g, steps[0], Effect(g, steps[0]));
      GuardedKeepsInv(Effect(g, steps[0]), steps[1..], g');
    }
  }

  lemma InvIsSound(g: Global)
    requires Inv(g)
    ensures Sound(g)
  {
    hide RunsOk, OneOpenEach, ClaimsOk, LeasesOk, ReadsOk;
  }

  lemma {:induction false} GuardedThen(g: Global, steps: seq<Action>, g': Global, more: seq<Action>, g'': Global)
    requires Guarded(g, steps, g') && Guarded(g', more, g'')
    ensures Guarded(g, steps + more, g'')
    decreases |steps|
  {
    hide Enabled, Effect, Next;
    if steps == [] {
      assert steps + more == more;
    } else {
      assert (steps + more)[1..] == steps[1..] + more;
      GuardedThen(Effect(g, steps[0]), steps[1..], g', more, g'');
    }
  }

  /** A worker's own step has no hypothesis to keep. */
  lemma WorkerStep(g: Global, a: Action, g': Global)
    requires Enabled(g, a) && PersonKey(a) == None && !a.Tick? && g' == Effect(g, a)
    ensures Guarded(g, [a], g')
  {
    hide Enabled, Effect, Settled, UnderReview, PastLease;
    assert [a][1..] == [] && Guarded(g', [], g');
  }

  lemma Standing(g: Global)
    ensures Guarded(g, [], g)
  {
  }

  // ----- fresh names ------------------------------------------------------------------------

  lemma {:induction false} FreshWorker(used: set<Worker>) returns (w: Worker)
    ensures forall u | u in used :: u < w
  {
    if used == {} {
      w := 0;
    } else {
      var u :| u in used;
      var v := FreshWorker(used - {u});
      w := if v > u then v else u + 1;
      forall x | x in used ensures x < w {
        assert x == u || x in used - {u};
      }
    }
  }

  lemma {:induction false} FreshString(used: set<string>) returns (s: string)
    ensures forall u | u in used :: |u| < |s|
  {
    if used == {} {
      s := "";
    } else {
      var u :| u in used;
      var v := FreshString(used - {u});
      s := if |v| > |u| then v else u + "x";
    }
  }

  /** An event nobody has heard of, and that the given values do not carry. */
  lemma FreshEvent(g: Global, v: Option<Values>) returns (e: string)
    ensures forall k | k in g.claims || k in g.runs :: k.event != e
    ensures v.Some? ==> e != v.value.impact.eventId && e !in v.value.updatedBy
  {
    var keys := g.claims + g.runs.Keys;
    var events := set k | k in keys :: k.event;
    var own := if v.Some? then {v.value.impact.eventId} + (set u | u in v.value.updatedBy) else {};
    e := FreshString(events + own);
    assert forall k | k in keys :: k.event in events;
    assert e !in events + own;
  }

  // ----- a new worker comes in ---------------------------------------------------------------

  lemma Joins(g: Global, k: Key, t: Trigger) returns (n: Worker, steps: seq<Action>, g': Global)
    requires k !in g.claims && t.eventId == k.event
    ensures Guarded(g, steps, g') && n !in g.phase
    ensures g' == g.(claims := g.claims + {k}, phase := g.phase[n := Claimed(k, t)])
  {
    n := FreshWorker(g.phase.Keys);
    assert n !in g.phase;
    var g1 := g.(phase := g.phase[n := Idle]);
    assert Effect(g, Join(n)) == g1;
    g' := g.(claims := g.claims + {k}, phase := g.phase[n := Claimed(k, t)]);
    assert g1.phase[n := Claimed(k, t)] == g'.phase;
    assert Effect(g1, Claim(n, k, t)) == g';
    hide Enabled, Effect, Guarded;
    assert Enabled(g, Join(n)) && Enabled(g1, Claim(n, k, t));
    WorkerStep(g, Join(n), g1);
    WorkerStep(g1, Claim(n, k, t), g');
    GuardedThen(g, [Join(n)], g1, [Claim(n, k, t)], g');
    steps := [Join(n)] + [Claim(n, k, t)];
  }

  /** The counterparty's lease can be taken now: no row, or an expired one. */
  predicate Takable(g: Global, cp: string) {
    cp in g.leases ==> g.now - g.leases[cp] >= LEASE_TTL
  }

  lemma TakesLease(g: Global, n: Worker, k: Key, t: Trigger) returns (steps: seq<Action>, g': Global)
    requires At(g, n, Claimed(k, t)) && Takable(g, k.cp)
    ensures Guarded(g, steps, g')
    ensures g' == g.(leases := g.leases[k.cp := g.now], phase := g.phase[n := Leased(k, t, g.now)])
  {
    g' := g.(leases := g.leases[k.cp := g.now], phase := g.phase[n := Leased(k, t, g.now)]);
    if k.cp in g.leases {
      var g1 := g.(phase := g.phase[n := LeaseTaken(k, t, g.now)]);
      assert Effect(g, InsertLease(n)) == g1;
      assert g1.phase[n := Leased(k, t, g.now)] == g'.phase;
      assert Effect(g1, ReadLease(n)) == g';
      hide Enabled, Effect, Guarded;
      assert Enabled(g, InsertLease(n)) && Enabled(g1, ReadLease(n));
      WorkerStep(g, InsertLease(n), g1);
      WorkerStep(g1, ReadLease(n), g');
      GuardedThen(g, [InsertLease(n)], g1, [ReadLease(n)], g');
      steps := [InsertLease(n)] + [ReadLease(n)];
    } else {
      assert Effect(g, InsertLease(n)) == g';
      hide Guarded;
      WorkerStep(g, InsertLease(n), g');
      steps := [InsertLease(n)];
    }
  }

  /** A newcomer claims `k` and takes the lease. */
  lemma ComesIn(g: Global, k: Key, t: Trigger) returns (n: Worker, steps: seq<Action>, g': Global)
    requires k !in g.claims && t.eventId == k.event && Takable(g, k.cp)
    ensures Guarded(g, steps, g') && n !in g.phase
    ensures g' == g.(claims := g.claims + {k}, leases := g.leases[k.cp := g.now],
                     phase := g.phase[n := Leased(k, t, g.now)])
  {
    hide Guarded, Enabled, Effect;
    var first, g1;
    n, first, g1 := Joins(g, k, t);
    var second;
    second, g' := TakesLease(g1, n, k, t);
    GuardedThen(g, first, g1, second, g');
    steps := first + second;
    assert g1.phase[n := Leased(k, t, g.now)] == g.phase[n := Leased(k, t, g.now)];
  }

  /** A lease holder looks and dispatches, and what that does to the runs. */
  lemma LooksAndDispatches(g: Global, n: Worker, k: Key, t: Trigger, at: int, found: Option<Key>, world: World)
    returns (g': Global)
    requires At(g, n, Leased(k, t, at)) && Finds(g.runs, k.cp, found)
    ensures found.Some? ==> found.value in g.runs
    ensures Guarded(g, [Look(n, found)] + [Dispatch(n, world, true)], g')
    ensures var seen := if found.Some? then Some((found.value, g.runs[found.value].values)) else None;
      g' == g.(runs := Applied(g.runs, k, t, seen, world), phase := g.phase[n := Finishing(k, at, true)])
  {
    hide Applied, Open;
    var seen := if found.Some? then Some((found.value, g.runs[found.value].values)) else None;
    var g1 := g.(phase := g.phase[n := Looked(k, t, at, seen)]);
    assert Effect(g, Look(n, found)) == g1;
    g' := g.(runs := Applied(g.runs, k, t, seen, world), phase := g.phase[n := Finishing(k, at, true)]);
    assert g1.phase[n := Finishing(k, at, true)] == g'.phase;
    assert Effect(g1, Dispatch(n, world, true)) == g';
    hide Enabled, Effect, Guarded, Finds;
    assert Enabled(g, Look(n, found)) && Enabled(g1, Dispatch(n, world, true));
    WorkerStep(g, Look(n, found), g1);
    WorkerStep(g1, Dispatch(n, world, true), g');
    GuardedThen(g, [Look(n, found)], g1, [Dispatch(n, world, true)], g');
  }

  // ----- a claim can always still be given back -----------------------------------------------

  /** A worker at work fails its way to giving its claim back. */
  lemma FailsToGivingBack(g: Global, u: Worker) returns (steps: seq<Action>, g': Global)
    requires u in g.phase && Active(g.phase[u])
    ensures Guarded(g, steps, g') && u in g'.phase && g'.phase[u].GivingBack? && g'.phase[u].key == g.phase[u].key
    ensures g' == g.(phase := g.phase[u := g'.phase[u]])
  {
    var p := g.phase[u];
    var back := g.(phase := g.phase[u := GivingBack(p.key, false)]);
    if p.GivingBack? {
      Standing(g);
      steps, g' := [], g;
    } else if p.Finishing? {
      steps, g' := [ReleaseFails(u)], back;
      WorkerStep(g, ReleaseFails(u), g');
    } else if HoldsLease(p) {
      var g1 := g.(phase := g.phase[u := Finishing(p.key, p.since, false)]);
      assert Effect(g, Fail(u, false)) == g1;
      assert Effect(g1, ReleaseFails(u)) == back by {
        assert g1.phase[u := GivingBack(p.key, false)] == back.phase;
      }
      WorkerStep(g, Fail(u, false), g1);
      WorkerStep(g1, ReleaseFails(u), back);
      GuardedThen(g, [Fail(u, false)], g1, [ReleaseFails(u)], back);
      steps, g' := [Fail(u, false)] + [ReleaseFails(u)], back;
    } else {
      steps, g' := [Fail(u, false)], back;
      WorkerStep(g, Fail(u, false), g');
    }
  }

  /** A claim that is not kept for good can be gone, with nothing else changed but that worker. */
  lemma GetsGivenBack(g: Global, k: Key) returns (steps: seq<Action>, g': Global)
    requires !Settled(g, k)
    ensures Guarded(g, steps, g') && k !in g'.claims
    ensures g'.runs == g.runs && g'.leases == g.leases && g'.now == g.now
  {
    if k !in g.claims {
      Standing(g);
      steps, g' := [], g;
    } else {
      var u :| u in g.phase && Active(g.phase[u]) && g.phase[u].key == k;
      var first, g1 := FailsToGivingBack(g, u);
      g' := g1.(claims := g1.claims - {k}, phase := g1.phase[u := Idle]);
      assert Effect(g1, GiveBack(u)) == g';
      hide Guarded;
      WorkerStep(g1, GiveBack(u), g');
      GuardedThen(g, first, g1, [GiveBack(u)], g');
      steps := first + [GiveBack(u)];
    }
  }

  ghost predicate AllCrashed(g: Global) {
    forall w | w in g.phase :: g.phase[w] == Crashed
  }

  lemma {:induction false} CrashAll(g: Global, todo: set<Worker>) returns (steps: seq<Action>, g': Global)
    requires todo <= g.phase.Keys && forall w | w in g.phase && w !in todo :: g.phase[w] == Crashed
    ensures Guarded(g, steps, g') && AllCrashed(g')
    ensures g' == g.(phase := g'.phase)
    decreases todo
  {
    if todo == {} {
      Standing(g);
      steps, g' := [], g;
    } else {
      var w :| w in todo;
      var g1 := g.(phase := g.phase[w := Crashed]);
      WorkerStep(g, Crash(w), g1);
      var rest;
      rest, g' := CrashAll(g1, todo - {w});
      GuardedThen(g, [Crash(w)], g1, rest, g');
      steps := [Crash(w)] + rest;
    }
  }

  /** With everybody gone, time passes until the lease can be taken. */
  lemma LeaseExpires(g: Global, cp: string) returns (steps: seq<Action>, g': Global)
    requires AllCrashed(g)
    ensures Guarded(g, steps, g') && Takable(g', cp) && g' == g.(now := g'.now)
  {
    if Takable(g, cp) {
      Standing(g);
      steps, g' := [], g;
    } else {
      g' := g.(now := g.leases[cp] + LEASE_TTL);
      var a := Tick(g.leases[cp] + LEASE_TTL);
      assert Enabled(g, a) && Effect(g, a) == g';
      assert [a][1..] == [] && Guarded(g', [], g');
      steps := [a];
    }
  }

  // ----- the first signature --------------------------------------------------------------------

  /** A first signature on `k`, and steps keeping every hypothesis after it. */
  ghost predicate LeadsTo(g: Global, k: Key, a: Action, rest: seq<Action>, g': Global) {
    a.ApproveFirst? && a.key == k && Enabled(g, a) && Guarded(Effect(g, a), rest, g')
  }

  /** What rejecting a call at its first gate leaves: a signed run that is not open, and no
      open call of its counterparty. */
  lemma Rejects(g: Global, k: Key, world: World) returns (a: Action, g': Global)
    requires Sound(g) && k in g.runs && g.runs[k].place == Paused(AwaitApproval, [])
    ensures a.ApproveFirst? && a.key == k && Enabled(g, a) && g' == Effect(g, a)
    ensures k in g'.runs && g'.runs[k].values.approval.Some? && forall j :: !OpenAt(g'.runs, j, k.cp)
    ensures g' == g.(runs := g.runs[k := g'.runs[k]])
  {
    hide RunOk, Open, Enabled, Effect;
    assert RunOk(g.runs[k]);
    PausedIsOpen(g.runs[k]);
    a, g' := RejectsRun(g, k, world);
    assert OpenAt(g.runs, k, k.cp) && AtMostOneOpen(g.runs, k.cp);
    NoneOpenAfter(g.runs, k, g'.runs[k], g'.runs);
  }

  lemma RejectsRun(g: Global, k: Key, world: World) returns (a: Action, g': Global)
    requires k in g.runs && RunOk(g.runs[k]) && g.runs[k].place == Paused(AwaitApproval, [])
    ensures a.ApproveFirst? && a.key == k && Enabled(g, a) && g' == Effect(g, a)
    ensures k in g'.runs && g' == g.(runs := g.runs[k := g'.runs[k]])
    ensures !Open(g'.runs[k]) && g'.runs[k].values.approval.Some?
  {
    RejectedIsClosed(g.runs[k], "", world);
    hide RunOk, Open, SignFirst;
    a := ApproveFirst(k, Rejected, None, "", world);
    g' := Effect(g, a);
  }

  /** A signed run that is unclaimed is started again by its own trigger. */
  lemma StartsSignedAgain(g: Global, k: Key) returns (steps: seq<Action>, g': Global)
    requires k in g.runs && g.runs[k].values.approval.Some? && k !in g.claims && forall j :: !OpenAt(g.runs, j, k.cp)
    ensures Guarded(g, steps, g') && k in g'.runs && !RunOk(g'.runs[k])
  {
    hide Guarded, RunOk, Open, Start;
    var world := SomeWorld(0.0);
    hide Smooth, BreachIn;
    var t := Trigger(k.event, 0, []);
    var s1, g1 := CrashAll(g, g.phase.Keys);
    var s2, g2 := LeaseExpires(g1, k.cp);
    var n, s3, g3 := ComesIn(g2, k, t);
    assert At(g3, n, Leased(k, t, g2.now)) && g3.runs == g.runs;
    var g4 := LooksAndDispatches(g3, n, k, t, g2.now, None, world);
    assert g4.runs == g.runs[k := Start(Some(g.runs[k]), t, k.cp, world)];
    RestartingSignedRunIsUnsound(g.runs[k], t, k.cp, world);
    GuardedThen(g, s1, g1, s2, g2);
    GuardedThen(g, s1 + s2, g2, s3, g3);
    GuardedThen(g, s1 + s2 + s3, g3, [Look(n, None)] + [Dispatch(n, world, true)], g4);
    steps, g' := s1 + s2 + s3 + ([Look(n, None)] + [Dispatch(n, world, true)]), g4;
  }

  /** A first signature on a run whose claim is not kept for good: give it back, and the
      run is started again. */
  lemma UnsettledSignatureIsUnsafe(g: Global, k: Key) returns (a: Action, rest: seq<Action>, g': Global)
    requires Inv(g) && k in g.runs && g.runs[k].place == Paused(AwaitApproval, []) && !Settled(g, k)
    ensures LeadsTo(g, k, a, rest, g') && !Sound(g')
  {
    var world := SomeWorld(0.0);
    var g1;
    InvIsSound(g);
    hide Sound;
    a, g1 := Rejects(g, k, world);
    hide Inv, Enabled, Effect, Guarded, RunOk, Open, Smooth, BreachIn;
    assert !Settled(g1, k);
    var s1, g2 := GetsGivenBack(g1, k);
    var s2;
    s2, g' := StartsSignedAgain(g2, k);
    GuardedThen(g1, s1, g2, s2, g');
    rest := s1 + s2;
    assert !RunsOk(g');
  }

  /** A first signature on a call a worker may still re-evaluate: it does. */
  lemma ReviewedSignatureIsUnsafe(g: Global, k: Key) returns (a: Action, rest: seq<Action>, g': Global)
    requires Inv(g) && k in g.runs && g.runs[k].place == Paused(AwaitApproval, []) && UnderReview(g, k)
    ensures LeadsTo(g, k, a, rest, g') && !Sound(g')
  {
    var w :| w in g.phase && Reviews(g.phase[w], k);
    var p := g.phase[w];
    var v := p.seen.value.1;
    var world: World :| Judge(Some(v), p.trigger, world) == ReevaluateCall;
    var g1;
    InvIsSound(g);
    hide Inv, Sound, Guarded, RunOk, Open, Judge, FromStart, Enabled, Effect;
    a, g1 := Rejects(g, k, world);
    assert g1.phase == g.phase;
    g' := StaleDispatch(g1, w, k, v, world);
    rest := [Dispatch(w, world, true)];
    assert !RunsOk(g');
  }

  /** A worker that read `k` before it was signed re-evaluates it all the same. */
  lemma StaleDispatch(g: Global, w: Worker, k: Key, v: Values, world: World) returns (g': Global)
    requires w in g.phase && g.phase[w].Looked? && g.phase[w].seen == Some((k, v))
    requires k in g.runs && g.runs[k].values.approval.Some?
    requires Judge(Some(v), g.phase[w].trigger, world) == ReevaluateCall
    ensures Guarded(g, [Dispatch(w, world, true)], g') && k in g'.runs && !RunOk(g'.runs[k])
  {
    hide Guarded, RunOk, Judge, FromStart;
    var t, r, updated := g.phase[w].trigger, g.runs[k], v.updatedBy + [g.phase[w].trigger.eventId];
    g' := Effect(g, Dispatch(w, world, true));
    WorkerStep(g, Dispatch(w, world, true), g');
    assert g'.runs[k] == Reevaluate(r, t, updated, world);
    SignedRestartIsUnsound(r.values.(trigger := Some(t), updatedBy := updated), r.log, world);
  }

  /** Signing a call at its first gate is safe - whoever signs it, however, and whatever
      follows that keeps the hypotheses, every run stays sound and no counterparty gets two
      open calls - exactly when its claim is kept for good and no worker may still
      re-evaluate it as it was. */
  lemma SignatureIsSafeExactlyWhen(g: Global, k: Key)
    requires Inv(g) && k in g.runs && g.runs[k].place == Paused(AwaitApproval, [])
    ensures (forall a, rest, g' | LeadsTo(g, k, a, rest, g') :: Sound(g')) <==> Settled(g, k) && !UnderReview(g, k)
  {
    hide Inv, Sound, Settled, UnderReview;
    if Settled(g, k) && !UnderReview(g, k) {
      forall a, rest, g' | LeadsTo(g, k, a, rest, g') ensures Sound(g') {
        FirstSignatureKeepsInvExactlyWhen(g, a);
        GuardedKeepsInv(Effect(g, a), rest, g');
        InvIsSound(g');
      }
    } else if !Settled(g, k) {
      var a, rest, g' := UnsettledSignatureIsUnsafe(g, k);
    } else {
      var a, rest, g' := ReviewedSignatureIsUnsafe(g, k);
    }
  }

  // ----- the lease ------------------------------------------------------------------------------

  predicate IsWorkerStep(a: Action) {
    PersonKey(a) == None && !a.Tick?
  }

  lemma {:induction false} WorkersOnly(g: Global, steps: seq<Action>, g': Global)
    requires Unguarded(g, steps, g') && forall i :: 0 <= i < |steps| ==> IsWorkerStep(steps[i])
    ensures Guarded(g, steps, g')
    decreases |steps|
  {
    hide Enabled, Effect, Settled, UnderReview, PastLease;
    if steps != [] {
      assert IsWorkerStep(steps[0]);
      WorkersOnly(Effect(g, steps[0]), steps[1..], g');
    }
  }

  /** A lease holder finishes and deletes the lease row - whoever's row it is by now. */
  lemma LetsGo(g: Global, w: Worker) returns (steps: seq<Action>, g': Global)
    requires w in g.phase && HoldsLease(g.phase[w])
    ensures Guarded(g, steps, g')
    ensures g' == g.(leases := g.leases - {g.phase[w].key.cp}, phase := g.phase[w := Idle])
  {
    var p := g.phase[w];
    g' := g.(leases := g.leases - {p.key.cp}, phase := g.phase[w := Idle]);
    if p.Finishing? && p.keep {
      steps := [Release(w)];
      WorkerStep(g, Release(w), g');
    } else if p.Finishing? {
      var g1 := g.(leases := g.leases - {p.key.cp}, phase := g.phase[w := GivingBack(p.key, false)]);
      assert Effect(g, Release(w)) == g1;
      assert g1.phase[w := Idle] == g'.phase;
      assert Effect(g1, GiveBackFails(w)) == g';
      WorkerStep(g, Release(w), g1);
      WorkerStep(g1, GiveBackFails(w), g');
      GuardedThen(g, [Release(w)], g1, [GiveBackFails(w)], g');
      steps := [Release(w)] + [GiveBackFails(w)];
    } else {
      var g1 := g.(phase := g.phase[w := Finishing(p.key, p.since, true)]);
      assert Effect(g, Fail(w, true)) == g1;
      assert g1.phase[w := Idle] == g'.phase;
      assert Effect(g1, Release(w)) == g';
      WorkerStep(g, Fail(w, true), g1);
      WorkerStep(g1, Release(w), g');
      GuardedThen(g, [Fail(w, true)], g1, [Release(w)], g');
      steps := [Fail(w, true)] + [Release(w)];
    }
  }

  lemma TwoInAtOnce(g: Global, w: Worker, u: Worker, k: Key, k': Key, t: Trigger, t': Trigger, at: int, at': int)
    returns (steps: seq<Action>, g': Global)
    requires w != u && k != k' && k.cp == k'.cp && At(g, w, Leased(k, t, at)) && At(g, u, Leased(k', t', at'))
    requires k !in g.runs && k' !in g.runs && t.moves == [] && t'.moves == []
    requires forall j :: !OpenAt(g.runs, j, k.cp)
    ensures Guarded(g, steps, g') && !OneOpenEach(g')
  {
    hide Start, OpenAt, AtMostOneOpen, Open, Unguarded, Guarded, Enabled, Effect;
    var world := SomeWorldRaises(t, k.cp);
    var world' := SomeWorldRaises(t', k'.cp);
    hide Smooth, BreachIn;
    var g1 := BothLook(g, w, u, k, k', t, t', at, at');
    g' := BothDispatch(g1, w, u, k, k', t, t', at, at', world, world');
    var looks := [Look(w, None), Look(u, None)];
    var dispatches := [Dispatch(w, world, true), Dispatch(u, world', true)];
    WorkersOnly(g, looks, g1);
    WorkersOnly(g1, dispatches, g');
    GuardedThen(g, looks, g1, dispatches, g');
    steps := looks + dispatches;
    TwoAreOpen(g.runs, k, k', Start(None, t, k.cp, world), Start(None, t', k'.cp, world'));
  }

  lemma TwoAreOpen(runs: map<Key, Run>, k: Key, k': Key, r: Run, r': Run)
    requires k != k' && k.cp == k'.cp && Open(r) && Open(r')
    ensures !AtMostOneOpen(runs[k := r][k' := r'], k.cp)
  {
    hide Open;
    var runs' := runs[k := r][k' := r'];
    assert OpenAt(runs', k, k.cp) && OpenAt(runs', k', k.cp);
  }

  /** A holder past its lease, no call open: one newcomer takes the lease over, the stale
      holder deletes the newcomer's row, a second newcomer comes in, and both raise a call. */
  lemma StaleHolderLetsTwoIn(g: Global, w: Worker) returns (steps: seq<Action>, g': Global)
    requires w in g.phase && HoldsLease(g.phase[w]) && Takable(g, g.phase[w].key.cp)
    requires forall j :: !OpenAt(g.runs, j, g.phase[w].key.cp)
    ensures Guarded(g, steps, g') && !OneOpenEach(g')
  {
    hide Guarded, Open, OneOpenEach;
    var cp := g.phase[w].key.cp;
    var e1 := FreshEvent(g, None);
    var u1, s1, g1 := ComesIn(g, Key(e1, cp), Trigger(e1, 0, []));
    var s2, g2 := LetsGo(g1, w);
    var e2 := FreshEvent(g2, None);
    var u2, s3, g3 := ComesIn(g2, Key(e2, cp), Trigger(e2, 0, []));
    assert e1 != e2 by {
      assert Key(e1, cp) in g2.claims;
    }
    assert At(g3, u1, Leased(Key(e1, cp), Trigger(e1, 0, []), g.now));
    assert At(g3, u2, Leased(Key(e2, cp), Trigger(e2, 0, []), g.now));
    var s4;
    s4, g' := TwoInAtOnce(g3, u1, u2, Key(e1, cp), Key(e2, cp), Trigger(e1, 0, []), Trigger(e2, 0, []), g.now, g.now);
    GuardedThen(g, s1, g1, s2, g2);
    GuardedThen(g, s1 + s2, g2, s3, g3);
    GuardedThen(g, s1 + s2 + s3, g3, s4, g');
    steps := s1 + s2 + s3 + s4;
  }

  // ----- closing the open call first ------------------------------------------------------------

  /** An open call nothing can close any more: a signed one whose node raised. */
  predicate Stuck(r: Run) {
    Open(r) && r.values.approval.Some? && r.place.Raised?
  }

  /** An unsigned call is re-evaluated away by a newcomer that takes the lease over. */
  lemma ClosesUnsigned(g: Global, w: Worker, k: Key) returns (steps: seq<Action>, g': Global)
    requires w in g.phase && Takable(g, k.cp) && k in g.runs && RunOk(g.runs[k]) && OneOpenEach(g)
    requires OpenAt(g.runs, k, k.cp) && g.runs[k].values.approval == None
    ensures Guarded(g, steps, g') && w in g'.phase && g'.phase[w] == g.phase[w]
    ensures Takable(g', k.cp) && forall j :: !OpenAt(g'.runs, j, k.cp)
  {
    hide Guarded, RunOk, Open, Reevaluate, Applied;
    var r := g.runs[k];
    var world := SomeWorld(1.0);
    var e := FreshEvent(g, Some(r.values));
    var t, key := Trigger(e, 0, []), Key(e, k.cp);
    ReevaluatedAway(r, t, world);
    hide Smooth, BreachIn;
    var n, s1, g1 := ComesIn(g, key, t);
    assert AtMostOneOpen(g.runs, k.cp);
    assert Finds(g1.runs, k.cp, Some(k));
    var g2 := LooksAndDispatches(g1, n, key, t, g.now, Some(k), world);
    var r' := Reevaluate(r, t, r.values.updatedBy + [e], world);
    OneReevaluation(g.runs, key, t, k, world);
    assert g2.runs == g.runs[k := r'];
    NoneOpenAfter(g.runs, k, r', g2.runs);
    var s3;
    s3, g' := LetsGo(g2, n);
    GuardedThen(g, s1, g1, [Look(n, Some(k))] + [Dispatch(n, world, true)], g2);
    GuardedThen(g, s1 + ([Look(n, Some(k))] + [Dispatch(n, world, true)]), g2, s3, g');
    steps := s1 + ([Look(n, Some(k))] + [Dispatch(n, world, true)]) + s3;
  }

  lemma OneReevaluation(runs: map<Key, Run>, key: Key, t: Trigger, k: Key, world: World)
    requires k in runs && Judge(Some(runs[k].values), t, world) == ReevaluateCall
    ensures Applied(runs, key, t, Some((k, runs[k].values)), world)
         == runs[k := Reevaluate(runs[k], t, runs[k].values.updatedBy + [t.eventId], world)]
  {
    hide Judge, Reevaluate;
  }

  lemma ReevaluatedAway(r: Run, t: Trigger, world: World)
    requires RunOk(r) && Open(r) && r.values.approval == None && t.moves == []
    requires t.eventId != r.values.impact.eventId && t.eventId !in r.values.updatedBy
    requires Smooth(world, []) && !BreachIn(world).breached
    ensures Judge(Some(r.values), t, world) == ReevaluateCall
    ensures !Open(Reevaluate(r, t, r.values.updatedBy + [t.eventId], world))
  {
    var updated := r.values.updatedBy + [t.eventId];
    assert |updated| > 0;
    UnsignedRecord(r);
    ReevaluatedRunMeaning(r, t, updated, world);
    hide Reevaluate, Smooth, BreachIn;
  }

  /** A signed call that is paused is overturned by a manager, or answered by the client. */
  lemma ClosesSigned(g: Global, w: Worker, k: Key) returns (steps: seq<Action>, g': Global)
    requires w in g.phase && Takable(g, k.cp) && k in g.runs && RunOk(g.runs[k]) && OneOpenEach(g) && ReadsOk(g)
    requires OpenAt(g.runs, k, k.cp) && g.runs[k].values.approval.Some? && !g.runs[k].place.Raised?
    ensures Guarded(g, steps, g') && w in g'.phase && g'.phase[w] == g.phase[w]
    ensures Takable(g', k.cp) && forall j :: !OpenAt(g'.runs, j, k.cp)
  {
    hide Stuck, RunOk, Open, ReadsOk, UnderReview, Enabled, Effect, Guarded;
    var r := g.runs[k];
    SignedOpenIsPaused(r);
    var a;
    if r.place.node == AwaitManagerApproval {
      a, g' := Overturns(g, k);
    } else {
      a, g' := IsAnswered(g, k);
    }
    NotUnderReview(g, k);
    PersonStep(g, a, g');
    steps := [a];
    assert AtMostOneOpen(g.runs, k.cp);
    NoneOpenAfter(g.runs, k, g'.runs[k], g'.runs);
  }

  lemma PersonStep(g: Global, a: Action, g': Global)
    requires Enabled(g, a) && PersonKey(a).Some? && !a.ApproveFirst? && !UnderReview(g, PersonKey(a).value)
    requires g' == Effect(g, a)
    ensures Guarded(g, [a], g')
  {
    hide Enabled, Effect, UnderReview;
    assert [a][1..] == [] && Guarded(g', [], g');
  }

  lemma Overturns(g: Global, k: Key) returns (a: Action, g': Global)
    requires k in g.runs && RunOk(g.runs[k]) && g.runs[k].place == Paused(AwaitManagerApproval, [])
    requires g.runs[k].values.breach.Some?
    ensures PersonKey(a) == Some(k) && !a.ApproveFirst? && Enabled(g, a) && g' == Effect(g, a)
    ensures k in g'.runs && g' == g.(runs := g.runs[k := g'.runs[k]]) && !Open(g'.runs[k])
  {
    var r := g.runs[k];
    var world := SomeWorld(0.0);
    var who := FreshString(if r.values.firstApprover.Some? then {r.values.firstApprover.value} else {});
    OverturnedIsClosed(r, who, world);
    hide RunOk, Open, SignSecond, Smooth, BreachIn;
    a := ApproveSecond(k, Overturned, who, world);
    g' := Effect(g, a);
  }

  lemma IsAnswered(g: Global, k: Key) returns (a: Action, g': Global)
    requires k in g.runs && RunOk(g.runs[k]) && g.runs[k].place.Paused? && g.runs[k].place.node == AwaitSlaResponse
    ensures PersonKey(a) == Some(k) && !a.ApproveFirst? && Enabled(g, a) && g' == Effect(g, a)
    ensures k in g'.runs && g' == g.(runs := g.runs[k := g'.runs[k]]) && !Open(g'.runs[k])
  {
    var r := g.runs[k];
    var world := SomeWorld(0.0);
    AnsweredIsClosed(r, world);
    hide RunOk, Open, SlaResume, Smooth, BreachIn;
    a := SignalSla(k, Responded, world);
    g' := Effect(g, a);
  }

  lemma SignedOpenIsPaused(r: Run)
    requires RunOk(r) && Open(r) && r.values.approval.Some? && !r.place.Raised?
    ensures r.values.breach.Some?
    ensures r.place == Paused(AwaitManagerApproval, [])
            || (r.place.Paused? && r.place.node == AwaitSlaResponse && r.values.sentAt.Some?)
  {
    assert SignedFits(r);
  }

  lemma NotUnderReview(g: Global, k: Key)
    requires ReadsOk(g) && k in g.runs && g.runs[k].values.approval.Some?
    ensures !UnderReview(g, k)
  {
    hide MayReevaluate;
    forall w | w in g.phase && Reviews(g.phase[w], k) ensures false {
      assert SeenOk(g, g.phase[w]);
      MayReevaluateIsUnsigned(g.phase[w].seen.value.1, g.phase[w].trigger);
    }
  }

  lemma OverturnedIsClosed(r: Run, who: string, world: World)
    requires r.values.breach.Some? && RunOk(r) && r.place == Paused(AwaitManagerApproval, [])
    ensures !Open(SignSecond(r, Overturned, who, world))
  {
  }

  lemma AnsweredIsClosed(r: Run, world: World)
    requires RunOk(r) && r.place.Paused? && r.place.node == AwaitSlaResponse
    ensures r.values.breach.Some? && r.values.sentAt.Some? && !Open(SlaResume(r, Responded, world))
  {
    ReplayMeaning(r.place.signals, Responded, world.now, Deadline(r.values, world));
  }

  lemma ClosesCall(g: Global, w: Worker, cp: string) returns (steps: seq<Action>, g': Global)
    requires w in g.phase && Takable(g, cp) && RunsOk(g) && OneOpenEach(g) && ReadsOk(g)
    requires forall k | OpenAt(g.runs, k, cp) :: !Stuck(g.runs[k])
    ensures Guarded(g, steps, g') && w in g'.phase && g'.phase[w] == g.phase[w]
    ensures Takable(g', cp) && forall j :: !OpenAt(g'.runs, j, cp)
  {
    hide Guarded, RunOk, Open, ReadsOk;
    if k :| OpenAt(g.runs, k, cp) {
      assert !Stuck(g.runs[k]);
      if g.runs[k].values.approval == None {
        steps, g' := ClosesUnsigned(g, w, k);
      } else {
        steps, g' := ClosesSigned(g, w, k);
      }
    } else {
      Standing(g);
      steps, g' := [], g;
    }
  }

  // ----- the clock ----------------------------------------------------------------------------------

  /** Time takes a worker past its lease: two calls can be open. */
  lemma TickPastLeaseIsUnsafe(g: Global, now: int, w: Worker) returns (rest: seq<Action>, g': Global)
    requires Inv(g) && now >= g.now && w in g.phase && PastLease(g, g.phase[w], now)
    requires forall k | OpenAt(g.runs, k, g.phase[w].key.cp) :: !Stuck(g.runs[k])
    ensures Guarded(g.(now := now), rest, g') && !Sound(g')
  {
    hide Guarded, RunOk, Open, SeenOk, OneOpenEach;
    var cp, g0 := g.phase[w].key.cp, g.(now := now);
    var s1, g1 := HoldsAtLast(g, now, w);
    var s2, g2 := ClosesCall(g1, w, cp);
    var s3;
    s3, g' := StaleHolderLetsTwoIn(g2, w);
    GuardedThen(g0, s1, g1, s2, g2);
    GuardedThen(g0, s1 + s2, g2, s3, g');
    rest := s1 + s2 + s3;
  }

  /** The worker past its lease holds it, after taking it over if it was about to. */
  lemma HoldsAtLast(g: Global, now: int, w: Worker) returns (steps: seq<Action>, g': Global)
    requires Inv(g) && now >= g.now && w in g.phase && PastLease(g, g.phase[w], now)
    ensures Guarded(g.(now := now), steps, g') && g'.runs == g.runs && RunsOk(g') && OneOpenEach(g') && ReadsOk(g')
    ensures w in g'.phase && HoldsLease(g'.phase[w]) && g'.phase[w].key.cp == g.phase[w].key.cp
    ensures Takable(g', g.phase[w].key.cp)
  {
    hide RunOk, Open, SeenOk, ClaimsOk;
    var p, g0 := g.phase[w], g.(now := now);
    forall u | u in g0.phase && g0.phase[u].Looked? ensures SeenOk(g0, g0.phase[u]) {
      assert SeenOk(g, g.phase[u]);
      SeenStands(g, g0, g0.phase[u]);
    }
    if HoldsLease(p) {
      Standing(g0);
      steps, g' := [], g0;
    } else {
      g' := g0.(leases := g.leases[p.key.cp := p.at], phase := g.phase[w := Leased(p.key, p.trigger, p.at)]);
      assert Effect(g0, ReadLease(w)) == g';
      WorkerStep(g0, ReadLease(w), g');
      steps := [ReadLease(w)];
      forall u | u in g'.phase && g'.phase[u].Looked? ensures SeenOk(g', g'.phase[u]) {
        assert SeenOk(g0, g0.phase[u]);
        SeenStands(g0, g', g'.phase[u]);
      }
    }
  }

  lemma SeenStands(g: Global, g': Global, p: Phase)
    requires p.Looked? && SeenOk(g, p) && g'.runs == g.runs
    ensures SeenOk(g', p)
  {
    hide Open, MayReevaluate;
  }

  ghost predicate TicksTo(g: Global, now: int, rest: seq<Action>, g': Global) {
    Guarded(g.(now := now), rest, g')
  }

  /** Letting time pass is safe - whatever follows that keeps the hypotheses, every run stays
      sound and no counterparty gets two open calls - exactly when it takes no live worker
      past its lease; workers for a counterparty whose open call is stuck aside. */
  lemma TickIsSafeExactlyWhen(g: Global, now: int)
    requires Inv(g) && now >= g.now
    requires forall w, k | w in g.phase && PastLease(g, g.phase[w], now) && OpenAt(g.runs, k, g.phase[w].key.cp) ::
      !Stuck(g.runs[k])
    ensures (forall rest, g' | TicksTo(g, now, rest, g') :: Sound(g')) <==> LeaseOutlivesDispatch(g, Tick(now))
  {
    hide Inv, Sound, PastLease, Guarded, Open;
    if LeaseOutlivesDispatch(g, Tick(now)) {
      forall rest, g' | TicksTo(g, now, rest, g') ensures Sound(g') {
        TickKeepsInv(g, Tick(now));
        GuardedKeepsInv(g.(now := now), rest, g');
        InvIsSound(g');
      }
    } else {
      var w :| w in g.phase && PastLease(g, g.phase[w], now);
      var rest, g' := TickPastLeaseIsUnsafe(g, now, w);
      assert TicksTo(g, now, rest, g');
    }
  }
}
