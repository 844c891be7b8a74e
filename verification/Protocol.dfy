/** The margin-call lifecycle as a concurrent protocol: workers dispatching triggers
    (src/agents/margin_policy.py, src/streaming/impact_consumer.py) interleaved with
    people and clients advancing runs (src/api/main.py, src/api/whatsapp_webhook.py)
    over the shared rows and checkpoints. */
module Protocol {
  import opened Wrappers
  import opened MarginRun
  import opened MarginPolicy

  // ----- the shared state -------------------------------------------------------------

  /** Where one worker is with one (event, counterparty). `since` is the clock value
      its lease row carries. */
  datatype Phase =
    | Idle
    | Claimed(key: Key, trigger: Trigger)
    | LeaseTaken(key: Key, trigger: Trigger, at: int)
    | Leased(key: Key, trigger: Trigger, since: int)
    | Looked(key: Key, trigger: Trigger, since: int, seen: Option<(Key, Values)>)
    | Finishing(key: Key, since: int, keep: bool)
    | GivingBack(key: Key, busy: bool)
    | Crashed

  type Worker = nat

  datatype Global = Global(
    now: int, claims: set<Key>, leases: map<string, int>, runs: map<Key, Run>, phase: map<Worker, Phase>)

  datatype Action =
    | Claim(w: Worker, key: Key, trigger: Trigger)
    | InsertLease(w: Worker)
    | ReadLease(w: Worker)
    | Look(w: Worker, found: Option<Key>)
    | Dispatch(w: Worker, world: World, keep: bool)
    | Release(w: Worker)
    | GiveBack(w: Worker)
    | BuildFails(w: Worker)
    | Fail(w: Worker, keep: bool)
    | ReleaseFails(w: Worker)
    | GiveBackFails(w: Worker)
    | Join(w: Worker)
    | Crash(w: Worker)
    | Tick(now: int)
    | ApproveFirst(key: Key, decision: FirstDecision, amount: Option<real>, who: string, world: World)
    | ApproveSecond(key: Key, verdict: ManagerDecision, who: string, world: World)
    | SignalSla(key: Key, signal: SlaSignal, world: World)

  // ----- phases -----------------------------------------------------------------------

  /** The worker holds its counterparty's lease. */
  predicate HoldsLease(p: Phase) {
    p.Leased? || p.Looked? || p.Finishing?
  }

  /** The worker may still dispatch, or may still give back, its claim. */
  predicate Active(p: Phase) {
    p.Claimed? || p.LeaseTaken? || p.Leased? || p.Looked? || p.Finishing? || p.GivingBack?
  }

  predicate At(g: Global, w: Worker, p: Phase) {
    w in g.phase && g.phase[w] == p
  }

  function SeenValues(p: Phase): Option<Values>
    requires p.Looked?
  {
    if p.seen.Some? then Some(p.seen.value.1) else None
  }

  // ----- the code's own guards ---------------------------------------------------------

  /** What the code lets happen in `g`. An error can strike at any point: building the graph
      right after the claim (outside what gives a claim back), in a dispatch before it has any
      effect, deleting the lease row, or deleting the claim row. */
  ghost predicate Enabled(g: Global, a: Action) {
    match a
    case Claim(w, key, trigger) =>
      At(g, w, Idle) && key !in g.claims && trigger.eventId == key.event
    case InsertLease(w) => w in g.phase && g.phase[w].Claimed?
    case ReadLease(w) => w in g.phase && g.phase[w].LeaseTaken?
    case Look(w, found) =>
      w in g.phase && g.phase[w].Leased? && Finds(g.runs, g.phase[w].key.cp, found)
    case Dispatch(w, world, keep) =>
      w in g.phase && g.phase[w].Looked? && (g.phase[w].seen.Some? ==> g.phase[w].seen.value.0 in g.runs)
    case Release(w) => w in g.phase && g.phase[w].Finishing?
    case GiveBack(w) => w in g.phase && g.phase[w].GivingBack?
    case BuildFails(w) => w in g.phase && g.phase[w].Claimed?
    case Fail(w, _) =>
      w in g.phase && (g.phase[w].Claimed? || g.phase[w].LeaseTaken? || g.phase[w].Leased? || g.phase[w].Looked?)
    case ReleaseFails(w) => w in g.phase && g.phase[w].Finishing?
    case GiveBackFails(w) => w in g.phase && g.phase[w].GivingBack?
    case Join(w) => w !in g.phase
    case Crash(w) => w in g.phase
    case Tick(now) => now >= g.now
    case ApproveFirst(key, _, _, _, _) => key in g.runs && g.runs[key].place == Paused(AwaitApproval, [])
                                          && g.runs[key].values.breach.Some?
    case ApproveSecond(key, _, who, _) =>
      key in g.runs && g.runs[key].place == Paused(AwaitManagerApproval, [])
      && g.runs[key].values.firstApprover != Some(who) && g.runs[key].values.breach.Some?
    case SignalSla(key, _, _) =>
      key in g.runs && g.runs[key].place.Paused? && g.runs[key].place.node == AwaitSlaResponse
      && g.runs[key].values.breach.Some? && g.runs[key].values.sentAt.Some?
  }

  ghost function Effect(g: Global, a: Action): Global
    requires Enabled(g, a)
  {
    match a
    case Claim(w, key, trigger) =>
      g.(claims := g.claims + {key}, phase := g.phase[w := Claimed(key, trigger)])
    case InsertLease(w) =>
      var p := g.phase[w];
      if p.key.cp in g.leases then g.(phase := g.phase[w := LeaseTaken(p.key, p.trigger, g.now)])
      else g.(leases := g.leases[p.key.cp := g.now], phase := g.phase[w := Leased(p.key, p.trigger, g.now)])
    case ReadLease(w) =>
      var p := g.phase[w];
      if p.key.cp !in g.leases || p.at - g.leases[p.key.cp] < LEASE_TTL
      then g.(phase := g.phase[w := GivingBack(p.key, true)])
      else g.(leases := g.leases[p.key.cp := p.at], phase := g.phase[w := Leased(p.key, p.trigger, p.at)])
    case Look(w, found) =>
      var p := g.phase[w];
      var seen := if found.Some? then Some((found.value, g.runs[found.value].values)) else None;
      g.(phase := g.phase[w := Looked(p.key, p.trigger, p.since, seen)])
    case Dispatch(w, world, keep) =>
      var p := g.phase[w];
      g.(runs := Applied(g.runs, p.key, p.trigger, p.seen, world),
         phase := g.phase[w := Finishing(p.key, p.since, keep)])
    case Release(w) =>
      var p := g.phase[w];
      g.(leases := g.leases - {p.key.cp}, phase := g.phase[w := if p.keep then Idle else GivingBack(p.key, false)])
    case GiveBack(w) =>
      g.(claims := g.claims - {g.phase[w].key}, phase := g.phase[w := Idle])
    case BuildFails(w) => g.(phase := g.phase[w := Idle])
    case Fail(w, keep) =>
      var p := g.phase[w];
      g.(phase := g.phase[w := if HoldsLease(p) then Finishing(p.key, p.since, keep) else GivingBack(p.key, false)])
    case ReleaseFails(w) => g.(phase := g.phase[w := GivingBack(g.phase[w].key, false)])
    case GiveBackFails(w) => g.(phase := g.phase[w := Idle])
    case Join(w) => g.(phase := g.phase[w := Idle])
    case Crash(w) => g.(phase := g.phase[w := Crashed])
    case Tick(now) => g.(now := now)
    case ApproveFirst(key, d, amount, who, world) =>
      g.(runs := g.runs[key := SignFirst(g.runs[key], d, amount, who, world)])
    case ApproveSecond(key, d, who, world) =>
      g.(runs := g.runs[key := SignSecond(g.runs[key], d, who, world)])
    case SignalSla(key, signal, world) =>
      g.(runs := g.runs[key := SlaResume(g.runs[key], signal, world)])
  }

  // ----- the hypotheses ----------------------------------------------------------------

  /** The worker found its counterparty's lease taken, and will find it expired. */
  ghost predicate TakesOver(g: Global, p: Phase) {
    p.LeaseTaken? && p.key.cp in g.leases && p.at - g.leases[p.key.cp] >= LEASE_TTL
  }

  /** The worker holds the lease, or is about to take it over, with a clock value that has
      expired at `now`. */
  ghost predicate PastLease(g: Global, p: Phase, now: int) {
    (HoldsLease(p) && now - p.since >= LEASE_TTL) || (TakesOver(g, p) && now - p.at >= LEASE_TTL)
  }

  /** No dispatch outlives its lease: the clock never reaches the expiry of a lease a
      live worker still holds, or is in the middle of taking. */
  ghost predicate LeaseOutlivesDispatch(g: Global, a: Action) {
    a.Tick? ==> forall w | w in g.phase :: !PastLease(g, g.phase[w], a.now)
  }

  function PersonKey(a: Action): Option<Key> {
    match a
    case ApproveFirst(key, _, _, _, _) => Some(key)
    case ApproveSecond(key, _, _, _) => Some(key)
    case SignalSla(key, _, _) => Some(key)
    case _ => None
  }

  /** In some world the trigger re-evaluates the call as it was read. */
  ghost predicate MayReevaluate(v: Values, t: Trigger) {
    exists world: World :: Judge(Some(v), t, world) == ReevaluateCall
  }

  /** The worker has read call `k` and may still re-evaluate it. */
  ghost predicate Reviews(p: Phase, k: Key) {
    p.Looked? && p.seen.Some? && p.seen.value.0 == k && MayReevaluate(p.seen.value.1, p.trigger)
  }

  ghost predicate UnderReview(g: Global, k: Key) {
    exists w :: w in g.phase && Reviews(g.phase[w], k)
  }

  /** Reading an unsigned call's stage and re-evaluating it are not split by a signature. */
  ghost predicate ReviewUndisturbed(g: Global, a: Action) {
    PersonKey(a).Some? ==> !UnderReview(g, PersonKey(a).value)
  }

  ghost predicate UnsignedAt(g: Global, k: Key) {
    Unsigned(Lookup(g.runs, k))
  }

  /** The claim is kept for good: nobody is working on `k` and nobody can start to. */
  ghost predicate Settled(g: Global, k: Key) {
    k in g.claims && forall w | w in g.phase && Active(g.phase[w]) :: g.phase[w].key != k
  }

  /** The first signature goes to a run whose claim is kept for good: not to one whose claim
      has been given back, or that a worker claimed anew and may still start or give back. */
  ghost predicate SignedRunsStayClaimed(g: Global, a: Action) {
    a.ApproveFirst? ==> Settled(g, a.key)
  }

  ghost predicate Next(g: Global, a: Action, g': Global) {
    Enabled(g, a) && LeaseOutlivesDispatch(g, a) && ReviewUndisturbed(g, a) && SignedRunsStayClaimed(g, a)
    && g' == Effect(g, a)
  }

  // ----- the invariant -----------------------------------------------------------------

  ghost predicate RunsOk(g: Global) {
    forall k | k in g.runs :: RunOk(g.runs[k])
  }

  ghost predicate OneOpenEach(g: Global) {
    forall cp :: AtMostOneOpen(g.runs, cp)
  }

  ghost predicate ClaimsOk(g: Global) {
    && (forall k | k !in g.claims :: UnsignedAt(g, k))
    && (forall w | w in g.phase && Active(g.phase[w]) :: g.phase[w].key in g.claims && UnsignedAt(g, g.phase[w].key))
    && (forall w, w' | w in g.phase && w' in g.phase && Active(g.phase[w]) && Active(g.phase[w'])
                       && g.phase[w].key == g.phase[w'].key :: w == w')
  }

  ghost predicate LeasesOk(g: Global) {
    && (forall w | w in g.phase && HoldsLease(g.phase[w]) ::
          && g.phase[w].key.cp in g.leases && g.leases[g.phase[w].key.cp] == g.phase[w].since
          && g.phase[w].since <= g.now)
    && (forall w, w' | w in g.phase && w' in g.phase && HoldsLease(g.phase[w]) && HoldsLease(g.phase[w'])
                       && g.phase[w].key.cp == g.phase[w'].key.cp :: w == w')
    && (forall w | w in g.phase && g.phase[w].LeaseTaken? :: g.phase[w].at <= g.now)
    && (forall w | w in g.phase :: !PastLease(g, g.phase[w], g.now))
  }

  /** What a worker has read is still so when it matters. */
  ghost predicate SeenOk(g: Global, p: Phase)
    requires p.Looked?
  {
    match p.seen
    case None => forall k :: !OpenAt(g.runs, k, p.key.cp)
    case Some((k, v)) =>
      && k in g.runs && k.cp == p.key.cp
      && (MayReevaluate(v, p.trigger) ==> g.runs[k].values == v)
  }

  ghost predicate ReadsOk(g: Global) {
    forall w | w in g.phase && g.phase[w].Looked? :: SeenOk(g, g.phase[w])
  }

  ghost predicate Inv(g: Global) {
    RunsOk(g) && OneOpenEach(g) && ClaimsOk(g) && LeasesOk(g) && ReadsOk(g)
  }

  // ----- preservation -------------------------------------------------------------------

  /** A person or client only ever moves a run that is paused, hence open. */
  lemma PersonMovesOpenRun(g: Global, a: Action, k: Key)
    requires RunsOk(g) && Enabled(g, a) && PersonKey(a) == Some(k)
    ensures k in g.runs && RunOk(g.runs[k]) && Open(g.runs[k])
    ensures a.ApproveFirst? || g.runs[k].values.approval.Some?
    ensures exists r' :: RunOk(r') && Effect(g, a) == g.(runs := g.runs[k := r'])
  {
    hide RunOk, SignFirst, SignSecond, SlaResume, Open;
    var r := g.runs[k];
    PausedIsOpen(r);
    match a
    case ApproveFirst(_, d, amount, who, world) =>
      SignFirstKeepsOk(r, d, amount, who, world);
      assert Effect(g, a) == g.(runs := g.runs[k := SignFirst(r, d, amount, who, world)]);
    case ApproveSecond(_, d, who, world) =>
      SignSecondKeepsOk(r, d, who, world);
      assert Effect(g, a) == g.(runs := g.runs[k := SignSecond(r, d, who, world)]);
    case SignalSla(_, signal, world) =>
      SlaResumeKeepsOk(r, signal, world);
      assert Effect(g, a) == g.(runs := g.runs[k := SlaResume(r, signal, world)]);
  }

  /** The claim of a signed run is kept for good. */
  lemma SignedIsSettled(g: Global, k: Key)
    requires ClaimsOk(g) && k in g.runs && g.runs[k].values.approval.Some?
    ensures Settled(g, k)
  {
    assert !UnsignedAt(g, k);
  }

  lemma PeopleKeepInv(g: Global, a: Action)
    requires Inv(g) && Enabled(g, a) && ReviewUndisturbed(g, a) && SignedRunsStayClaimed(g, a) && PersonKey(a).Some?
    ensures Inv(Effect(g, a))
  {
    hide RunOk, Open, Enabled, Effect, OpenStage, Settled;
    var k := PersonKey(a).value;
    PersonMovesOpenRun(g, a, k);
    if !a.ApproveFirst? {
      SignedIsSettled(g, k);
    }
    var r' :| RunOk(r') && Effect(g, a) == g.(runs := g.runs[k := r']);
    ReplaceOpenRunKeepsInv(g, k, r');
  }

  lemma FewerOpenKeepsOne(runs: map<Key, Run>, runs': map<Key, Run>)
    requires forall cp :: AtMostOneOpen(runs, cp)
    requires forall k, cp | OpenAt(runs', k, cp) :: OpenAt(runs, k, cp)
    ensures forall cp :: AtMostOneOpen(runs', cp)
  {
    hide Open;
    forall cp ensures AtMostOneOpen(runs', cp) {
      forall k, k' | OpenAt(runs', k, cp) && OpenAt(runs', k', cp) ensures k == k' {
        assert OpenAt(runs, k, cp) && OpenAt(runs, k', cp) && AtMostOneOpen(runs, cp);
      }
    }
  }

  /** Replacing an open run nobody has under review by another sound run. */
  lemma ReplaceOpenRunKeepsInv(g: Global, k: Key, r': Run)
    requires Inv(g) && k in g.runs && Open(g.runs[k]) && !UnderReview(g, k) && Settled(g, k) && RunOk(r')
    ensures Inv(g.(runs := g.runs[k := r']))
  {
    hide RunOk, Open, OpenStage;
    var g' := g.(runs := g.runs[k := r']);
    assert forall k' | k' != k :: Lookup(g'.runs, k') == Lookup(g.runs, k');
    FewerOpenKeepsOne(g.runs, g'.runs);
    assert ClaimsOk(g') by {
      assert forall k' :: k' != k ==> (UnsignedAt(g', k') <==> UnsignedAt(g, k'));
    }
    forall w | w in g'.phase && g'.phase[w].Looked? ensures SeenOk(g', g'.phase[w]) {
      assert SeenOk(g, g.phase[w]);
    }
  }

  lemma TickKeepsInv(g: Global, a: Action)
    requires Inv(g) && Enabled(g, a) && LeaseOutlivesDispatch(g, a) && a.Tick?
    ensures Inv(Effect(g, a))
  {
    hide RunOk, Open, OpenStage;
    var g' := Effect(g, a);
    assert g' == g.(now := a.now);
    assert RunsOk(g') && OneOpenEach(g');
    assert ClaimsOk(g') by {
      assert forall k :: UnsignedAt(g', k) == UnsignedAt(g, k);
    }
    assert LeasesOk(g');
    forall w | w in g'.phase && g'.phase[w].Looked? ensures SeenOk(g', g'.phase[w]) {
      assert SeenOk(g, g.phase[w]);
    }
  }

  /** `g'` is `g` with only worker `w` moved, and perhaps rows changed. */
  ghost predicate OnlyMoves(g: Global, g': Global, w: Worker) {
    w in g.phase && w in g'.phase && g'.runs == g.runs && g'.now == g.now && g'.phase == g.phase[w := g'.phase[w]]
  }

  /** A worker's move that leaves the runs alone keeps everything said about runs and reads. */
  lemma RunsAndReadsStand(g: Global, g': Global, w: Worker)
    requires Inv(g) && OnlyMoves(g, g', w) && (g'.phase[w].Looked? ==> SeenOk(g', g'.phase[w]))
    ensures RunsOk(g') && OneOpenEach(g') && ReadsOk(g')
  {
    hide RunOk, Open, OpenStage, ClaimsOk, LeasesOk;
    forall u | u in g'.phase && g'.phase[u].Looked? ensures SeenOk(g', g'.phase[u]) {
      if u != w {
        assert SeenOk(g, g.phase[u]);
      }
    }
  }

  /** A worker that stays on its claim, or stops being active, leaves the claims in order. */
  lemma ClaimsStand(g: Global, g': Global, w: Worker)
    requires ClaimsOk(g) && OnlyMoves(g, g', w) && g'.claims == g.claims
    requires Active(g'.phase[w]) ==> Active(g.phase[w]) && g'.phase[w].key == g.phase[w].key
    ensures ClaimsOk(g')
  {
    hide RunOk, Open, Active;
    assert forall k :: UnsignedAt(g', k) == UnsignedAt(g, k);
  }

  /** So does a worker that keeps the lease it holds, or holds none. */
  lemma LeasesStand(g: Global, g': Global, w: Worker)
    requires LeasesOk(g) && OnlyMoves(g, g', w) && g'.leases == g.leases && !g'.phase[w].LeaseTaken?
    requires HoldsLease(g'.phase[w]) ==>
      HoldsLease(g.phase[w]) && g'.phase[w].key == g.phase[w].key && g'.phase[w].since == g.phase[w].since
    ensures LeasesOk(g')
  {
    hide HoldsLease;
  }

  lemma CrashKeepsInv(g: Global, w: Worker)
    requires Inv(g) && w in g.phase
    ensures Inv(g.(phase := g.phase[w := Crashed]))
  {
    hide RunOk, Open, OpenStage, RunsOk, OneOpenEach, ReadsOk, ClaimsOk, LeasesOk;
    var g' := g.(phase := g.phase[w := Crashed]);
    RunsAndReadsStand(g, g', w);
    ClaimsStand(g, g', w);
    LeasesStand(g, g', w);
  }

  lemma ClaimKeepsInv(g: Global, w: Worker, key: Key, trigger: Trigger)
    requires Inv(g) && At(g, w, Idle) && key !in g.claims
    ensures Inv(g.(claims := g.claims + {key}, phase := g.phase[w := Claimed(key, trigger)]))
  {
    var g' := g.(claims := g.claims + {key}, phase := g.phase[w := Claimed(key, trigger)]);
    NewClaimStands(g, w, key, trigger);
    hide RunOk, Open, OpenStage, RunsOk, OneOpenEach, ReadsOk, ClaimsOk, LeasesOk;
    RunsAndReadsStand(g, g', w);
    LeasesStand(g, g', w);
  }

  lemma NewClaimStands(g: Global, w: Worker, key: Key, trigger: Trigger)
    requires ClaimsOk(g) && At(g, w, Idle) && key !in g.claims
    ensures ClaimsOk(g.(claims := g.claims + {key}, phase := g.phase[w := Claimed(key, trigger)]))
  {
    hide RunOk, Open;
    var g' := g.(claims := g.claims + {key}, phase := g.phase[w := Claimed(key, trigger)]);
    assert forall k :: UnsignedAt(g', k) == UnsignedAt(g, k);
  }

  lemma InsertLeaseKeepsInv(g: Global, w: Worker)
    requires Inv(g) && w in g.phase && g.phase[w].Claimed?
    ensures Inv(Effect(g, InsertLease(w)))
  {
    var g', p := Effect(g, InsertLease(w)), g.phase[w];
    InsertedLeaseStands(g, w);
    hide RunOk, Open, OpenStage, RunsOk, OneOpenEach, ReadsOk, ClaimsOk, LeasesOk;
    assert OnlyMoves(g, g', w);
    RunsAndReadsStand(g, g', w);
    ClaimsStand(g, g', w);
  }

  lemma InsertedLeaseStands(g: Global, w: Worker)
    requires LeasesOk(g) && w in g.phase && g.phase[w].Claimed?
    ensures LeasesOk(Effect(g, InsertLease(w)))
  {
    hide RunOk, Open, OpenStage;
    var g', p := Effect(g, InsertLease(w)), g.phase[w];
    if p.key.cp in g.leases {
      assert g' == g.(phase := g.phase[w := LeaseTaken(p.key, p.trigger, g.now)]);
    } else {
      assert g' == g.(leases := g.leases[p.key.cp := g.now], phase := g.phase[w := Leased(p.key, p.trigger, g.now)]);
    }
  }

  /** Mutual exclusion: a lease row is only overwritten once no live worker holds it. */
  lemma ReadLeaseKeepsInv(g: Global, w: Worker)
    requires Inv(g) && w in g.phase && g.phase[w].LeaseTaken?
    ensures Inv(Effect(g, ReadLease(w)))
  {
    var g', p := Effect(g, ReadLease(w)), g.phase[w];
    if p.key.cp in g.leases && p.at - g.leases[p.key.cp] >= LEASE_TTL {
      ExpiredLeaseIsFree(g, w);
    }
    hide RunOk, Open, OpenStage, RunsOk, OneOpenEach, ReadsOk, ClaimsOk, LeasesOk;
    assert OnlyMoves(g, g', w);
    RunsAndReadsStand(g, g', w);
    ClaimsStand(g, g', w);
    if p.key.cp !in g.leases || p.at - g.leases[p.key.cp] < LEASE_TTL {
      LeasesStand(g, g', w);
    }
  }

  /** Nobody holds the lease a taker finds expired, so taking it over excludes the others. */
  lemma ExpiredLeaseIsFree(g: Global, w: Worker)
    requires LeasesOk(g) && w in g.phase && g.phase[w].LeaseTaken?
    requires g.phase[w].key.cp in g.leases && g.phase[w].at - g.leases[g.phase[w].key.cp] >= LEASE_TTL
    ensures var p := g.phase[w];
      LeasesOk(g.(leases := g.leases[p.key.cp := p.at], phase := g.phase[w := Leased(p.key, p.trigger, p.at)]))
  {
    var p := g.phase[w];
    forall u | u in g.phase && HoldsLease(g.phase[u]) ensures g.phase[u].key.cp != p.key.cp {
    }
  }

  lemma LookKeepsInv(g: Global, w: Worker, found: Option<Key>)
    requires Inv(g) && Enabled(g, Look(w, found))
    ensures Inv(Effect(g, Look(w, found)))
  {
    var g' := Effect(g, Look(w, found));
    SeesWhatIsThere(g, w, found);
    hide RunOk, Open, OpenStage, RunsOk, OneOpenEach, ReadsOk, ClaimsOk, LeasesOk, SeenOk;
    assert OnlyMoves(g, g', w);
    RunsAndReadsStand(g, g', w);
    ClaimsStand(g, g', w);
    LeasesStand(g, g', w);
  }

  lemma SeesWhatIsThere(g: Global, w: Worker, found: Option<Key>)
    requires Enabled(g, Look(w, found))
    ensures var g' := Effect(g, Look(w, found)); g'.phase[w].Looked? && SeenOk(g', g'.phase[w])
  {
    hide Open, OpenStage;
  }

  lemma ReleaseKeepsInv(g: Global, w: Worker)
    requires Inv(g) && w in g.phase && g.phase[w].Finishing?
    ensures Inv(Effect(g, Release(w)))
  {
    var g' := Effect(g, Release(w));
    ReleasedLeaseStands(g, w);
    hide RunOk, Open, OpenStage, RunsOk, OneOpenEach, ReadsOk, ClaimsOk, LeasesOk;
    assert OnlyMoves(g, g', w);
    RunsAndReadsStand(g, g', w);
    ClaimsStand(g, g', w);
  }

  lemma ReleasedLeaseStands(g: Global, w: Worker)
    requires LeasesOk(g) && w in g.phase && g.phase[w].Finishing?
    ensures LeasesOk(Effect(g, Release(w)))
  {
    hide RunOk, Open, OpenStage;
    var g', p := Effect(g, Release(w)), g.phase[w];
    assert g' == g.(leases := g.leases - {p.key.cp},
                    phase := g.phase[w := if p.keep then Idle else GivingBack(p.key, false)]);
    assert HoldsLease(p);
  }

  /** A step that ends a worker's work, or leaves it giving back, and changes no row. */
  lemma QuietStepKeepsInv(g: Global, a: Action)
    requires Inv(g) && Enabled(g, a)
    requires a.BuildFails? || a.Fail? || a.ReleaseFails? || a.GiveBackFails?
    ensures Inv(Effect(g, a))
  {
    var g' := Effect(g, a);
    hide RunOk, Open, OpenStage, RunsOk, OneOpenEach, ReadsOk, ClaimsOk, LeasesOk;
    assert OnlyMoves(g, g', a.w);
    RunsAndReadsStand(g, g', a.w);
    ClaimsStand(g, g', a.w);
    LeasesStand(g, g', a.w);
  }

  lemma JoinKeepsInv(g: Global, w: Worker)
    requires Inv(g) && w !in g.phase
    ensures Inv(g.(phase := g.phase[w := Idle]))
  {
    JoinKeepsClaims(g, w);
    JoinKeepsLeases(g, w);
    hide RunOk, Open, OpenStage, ClaimsOk, LeasesOk;
    var g' := g.(phase := g.phase[w := Idle]);
    forall u | u in g'.phase && g'.phase[u].Looked? ensures SeenOk(g', g'.phase[u]) {
      assert SeenOk(g, g.phase[u]);
    }
  }

  lemma JoinKeepsClaims(g: Global, w: Worker)
    requires ClaimsOk(g) && w !in g.phase
    ensures ClaimsOk(g.(phase := g.phase[w := Idle]))
  {
    hide RunOk, Open;
    assert forall k :: UnsignedAt(g.(phase := g.phase[w := Idle]), k) == UnsignedAt(g, k);
  }

  lemma JoinKeepsLeases(g: Global, w: Worker)
    requires LeasesOk(g) && w !in g.phase
    ensures LeasesOk(g.(phase := g.phase[w := Idle]))
  {
    var g' := g.(phase := g.phase[w := Idle]);
    assert forall u | u in g.phase :: PastLease(g', g'.phase[u], g'.now) == PastLease(g, g.phase[u], g.now);
  }

  lemma GiveBackKeepsInv(g: Global, w: Worker)
    requires Inv(g) && w in g.phase && g.phase[w].GivingBack?
    ensures Inv(Effect(g, GiveBack(w)))
  {
    var g' := Effect(g, GiveBack(w));
    GivenBackClaimStands(g, w);
    hide RunOk, Open, OpenStage, RunsOk, OneOpenEach, ReadsOk, ClaimsOk, LeasesOk;
    assert OnlyMoves(g, g', w);
    RunsAndReadsStand(g, g', w);
    LeasesStand(g, g', w);
  }

  lemma GivenBackClaimStands(g: Global, w: Worker)
    requires ClaimsOk(g) && w in g.phase && g.phase[w].GivingBack?
    ensures ClaimsOk(Effect(g, GiveBack(w)))
  {
    hide RunOk, Open, OpenStage;
    var g', p := Effect(g, GiveBack(w)), g.phase[w];
    assert g' == g.(claims := g.claims - {p.key}, phase := g.phase[w := Idle]);
    assert Active(p) && forall k :: UnsignedAt(g', k) == UnsignedAt(g, k);
  }

  /** While `w` is about to dispatch for a counterparty, nobody else has read its runs. */
  lemma OnlyReader(g: Global, w: Worker, u: Worker)
    requires Inv(g) && w in g.phase && u in g.phase && u != w && g.phase[w].Looked? && g.phase[u].Looked?
    ensures g.phase[u].key.cp != g.phase[w].key.cp
  {
    hide RunOk, Open, OpenStage;
    assert HoldsLease(g.phase[w]) && HoldsLease(g.phase[u]);
  }

  /** A dispatch rewrites at most one run, of the worker's own counterparty, and leaves
      that counterparty with at most one open call. */
  lemma DispatchRewrites(g: Global, w: Worker, world: World) returns (k: Key)
    requires Inv(g) && w in g.phase && g.phase[w].Looked?
    ensures var p := g.phase[w];
      (p.seen.Some? ==> p.seen.value.0 in g.runs)
    ensures var p := g.phase[w];
      var runs' := Applied(g.runs, p.key, p.trigger, p.seen, world);
      && k.cp == p.key.cp
      && (runs' == g.runs || (k in runs' && runs' == g.runs[k := runs'[k]] && RunOk(runs'[k])
                              && Unsigned(Lookup(runs', k))
                              && forall k' | OpenAt(g.runs, k', p.key.cp) :: k' == k))
  {
    hide RunOk, Start, Reevaluate, IntradayGate, Called;
    var p := g.phase[w];
    k := p.key;
    assert SeenOk(g, p);
    var verdict := Judge(SeenValues(p), p.trigger, world);
    if verdict == StartNew {
      assert Active(p);
      NoOpenCallIsStartable(g.runs, k);
      StartKeepsOk(Lookup(g.runs, k), p.trigger, k.cp, world);
    } else if verdict == ReevaluateCall {
      var (k', v) := p.seen.value;
      k := k';
      assert MayReevaluate(v, p.trigger);
      assert g.runs[k].values == v && Open(g.runs[k]);
      AwaitingIsUnsigned(v);
      var updated := v.updatedBy + [p.trigger.eventId];
      assert |updated| > 0;
      ReevaluateOkExactlyWhenUnsigned(g.runs[k], p.trigger, updated, world);
      ReevaluationSignsNothing(g.runs[k], p.trigger, updated, world);
      assert OpenAt(g.runs, k, k.cp) && AtMostOneOpen(g.runs, k.cp);
    }
  }

  lemma DispatchKeepsInv(g: Global, w: Worker, world: World, keep: bool)
    requires Inv(g) && Enabled(g, Dispatch(w, world, keep))
    ensures Inv(Effect(g, Dispatch(w, world, keep)))
  {
    hide RunOk, Open, OpenStage, Applied;
    var a := Dispatch(w, world, keep);
    var g', p := Effect(g, a), g.phase[w];
    var k := DispatchRewrites(g, w, world);
    assert Active(p) && HoldsLease(p);
    var mine := Finishing(p.key, p.since, keep);
    assert g' == g.(runs := g'.runs, phase := g.phase[w := mine]);
    assert RunsOk(g');
    StillOneOpen(g.runs, g'.runs, k);
    OthersReadsStand(g, w, k, g');
    DispatchedRowsStand(g, w, k, g');
  }

  /** A dispatch changes no row; its worker keeps the lease, and its claim while it may give it back. */
  lemma DispatchedRowsStand(g: Global, w: Worker, k: Key, g': Global)
    requires Inv(g) && w in g.phase && g.phase[w].Looked? && k.cp == g.phase[w].key.cp
    requires w in g'.phase && g'.phase[w].Finishing?
    requires g'.phase[w].key == g.phase[w].key && g'.phase[w].since == g.phase[w].since
    requires g' == g.(runs := g'.runs, phase := g.phase[w := g'.phase[w]])
    requires g'.runs == g.runs || (k in g'.runs && g'.runs == g.runs[k := g'.runs[k]]
                                   && UnsignedAt(g', k))
    ensures ClaimsOk(g') && LeasesOk(g')
  {
    hide RunOk, Open, OpenStage;
    var p := g.phase[w];
    assert Active(p) && HoldsLease(p);
    assert forall k' | UnsignedAt(g, k') :: UnsignedAt(g', k');
  }

  lemma StillOneOpen(runs: map<Key, Run>, runs': map<Key, Run>, k: Key)
    requires forall cp :: AtMostOneOpen(runs, cp)
    requires runs' == runs
             || (k in runs' && runs' == runs[k := runs'[k]] && forall k' | OpenAt(runs, k', k.cp) :: k' == k)
    ensures forall cp :: AtMostOneOpen(runs', cp)
  {
    hide Open;
    forall cp ensures AtMostOneOpen(runs', cp) {
      assert AtMostOneOpen(runs, cp);
      forall k1, k2 | OpenAt(runs', k1, cp) && OpenAt(runs', k2, cp) ensures k1 == k2 {
        assert k1 != k || runs' == runs ==> OpenAt(runs, k1, cp);
        assert k2 != k || runs' == runs ==> OpenAt(runs, k2, cp);
      }
    }
  }

  /** Rewriting one run of `w`'s counterparty leaves what the other workers have read so. */
  lemma OthersReadsStand(g: Global, w: Worker, k: Key, g': Global)
    requires Inv(g) && w in g.phase && g.phase[w].Looked? && k.cp == g.phase[w].key.cp
    requires w in g'.phase && g'.phase == g.phase[w := g'.phase[w]] && !g'.phase[w].Looked?
    requires g'.runs == g.runs || (k in g'.runs && g'.runs == g.runs[k := g'.runs[k]])
    ensures ReadsOk(g')
  {
    hide RunOk, Open, OpenStage;
    forall u | u in g'.phase && g'.phase[u].Looked? ensures SeenOk(g', g'.phase[u]) {
      OnlyReader(g, w, u);
      assert SeenOk(g, g.phase[u]);
      forall k' ensures !OpenAt(g.runs, k', g.phase[u].key.cp) ==> !OpenAt(g'.runs, k', g.phase[u].key.cp) {
      }
    }
  }

  // ----- the main results -----------------------------------------------------------------

  /** Every step, of every worker, person or client, keeps the invariant. */
  lemma NextKeepsInv(g: Global, a: Action, g': Global)
    requires Inv(g) && Next(g, a, g')
    ensures Inv(g')
  {
    hide Inv, Effect, Enabled;
    match a
    case Claim(w, key, trigger) => ClaimStep(g, a);
    case InsertLease(w) => RowStep(g, a);
    case ReadLease(w) => RowStep(g, a);
    case Look(w, found) => LookKeepsInv(g, w, found);
    case Dispatch(w, world, keep) => DispatchKeepsInv(g, w, world, keep);
    case Release(w) => RowStep(g, a);
    case GiveBack(w) => RowStep(g, a);
    case BuildFails(w) => QuietStepKeepsInv(g, a);
    case Fail(w, keep) => QuietStepKeepsInv(g, a);
    case ReleaseFails(w) => QuietStepKeepsInv(g, a);
    case GiveBackFails(w) => QuietStepKeepsInv(g, a);
    case Join(w) => JoinStep(g, a);
    case Crash(w) => RowStep(g, a);
    case Tick(now) => TickKeepsInv(g, a);
    case ApproveFirst(_, _, _, _, _) => PeopleKeepInv(g, a);
    case ApproveSecond(_, _, _, _) => PeopleKeepInv(g, a);
    case SignalSla(_, _, _) => PeopleKeepInv(g, a);
  }

  lemma ClaimStep(g: Global, a: Action)
    requires Inv(g) && Enabled(g, a) && a.Claim?
    ensures Inv(Effect(g, a))
  {
    hide Inv;
    ClaimKeepsInv(g, a.w, a.key, a.trigger);
  }

  lemma JoinStep(g: Global, a: Action)
    requires Inv(g) && Enabled(g, a) && a.Join?
    ensures Inv(Effect(g, a))
  {
    hide Inv;
    JoinKeepsInv(g, a.w);
  }

  lemma RowStep(g: Global, a: Action)
    requires Inv(g) && Enabled(g, a) && (a.InsertLease? || a.ReadLease? || a.Release? || a.GiveBack? || a.Crash?)
    ensures Inv(Effect(g, a))
  {
    hide Inv;
    match a
    case InsertLease(w) => InsertLeaseKeepsInv(g, w);
    case ReadLease(w) => ReadLeaseKeepsInv(g, w);
    case Release(w) => ReleaseKeepsInv(g, w);
    case GiveBack(w) => GiveBackKeepsInv(g, w);
    case Crash(w) => CrashKeepsInv(g, w);
  }

  // ----- the hypotheses are exact -----------------------------------------------------------

  /** A first signature keeps the invariant exactly when the run's claim is kept for good
      and no worker is between reading the call as unsigned and acting on it. */
  lemma FirstSignatureKeepsInvExactlyWhen(g: Global, a: Action)
    requires Inv(g) && Enabled(g, a) && a.ApproveFirst?
    ensures Inv(Effect(g, a)) <==> Settled(g, a.key) && !UnderReview(g, a.key)
  {
    hide RunOk, Open, OpenStage, Settled, SignFirst;
    if Settled(g, a.key) && !UnderReview(g, a.key) {
      hide Inv, Enabled, Effect, UnderReview;
      PeopleKeepInv(g, a);
    } else {
      SigningBreaksInv(g, a);
    }
  }

  lemma SigningBreaksInv(g: Global, a: Action)
    requires Inv(g) && Enabled(g, a) && a.ApproveFirst? && (!Settled(g, a.key) || UnderReview(g, a.key))
    ensures !Inv(Effect(g, a))
  {
    hide RunOk, Open, OpenStage, SignFirst;
    var k, g' := a.key, Effect(g, a);
    FirstSignatureSigns(g.runs[k], a.decision, a.amount, a.who, a.world);
    assert g'.runs[k].values.approval.Some? && !UnsignedAt(g', k);
    if !Settled(g, k) {
      assert k !in g'.claims || exists w :: w in g'.phase && Active(g'.phase[w]) && g'.phase[w].key == k;
      assert !ClaimsOk(g');
    } else {
      var w :| w in g.phase && Reviews(g.phase[w], k);
      MayReevaluateIsUnsigned(g.phase[w].seen.value.1, g.phase[w].trigger);
      assert !SeenOk(g', g'.phase[w]);
    }
  }

  lemma MayReevaluateIsUnsigned(v: Values, t: Trigger)
    requires MayReevaluate(v, t)
    ensures OpenStage(v) == Some(AwaitingApproval) && v.approval == None
  {
    hide IntradayGate;
    var world: World :| Judge(Some(v), t, world) == ReevaluateCall;
    AwaitingIsUnsigned(v);
  }

  lemma FirstSignatureSigns(r: Run, d: FirstDecision, amount: Option<real>, who: string, world: World)
    requires r.values.breach.Some?
    ensures SignFirst(r, d, amount, who, world).values.approval.Some?
  {
  }

  /** Time passing keeps the invariant exactly when it takes no live worker past its lease. */
  lemma TickKeepsInvExactlyWhen(g: Global, a: Action)
    requires Inv(g) && Enabled(g, a) && a.Tick?
    ensures Inv(Effect(g, a)) <==> LeaseOutlivesDispatch(g, a)
  {
    hide RunOk, Open, OpenStage;
    if LeaseOutlivesDispatch(g, a) {
      TickKeepsInv(g, a);
    } else {
      var w :| w in g.phase && PastLease(g, g.phase[w], a.now);
      var g' := Effect(g, a);
      assert PastLease(g', g'.phase[w], g'.now);
    }
  }

  // ----- whole executions -------------------------------------------------------------------

  /** Any persisted state with at most one open call per counterparty and nobody at work;
      lease rows left by crashed workers may be there. */
  ghost predicate Initial(g: Global) {
    && RunsOk(g) && OneOpenEach(g)
    && (forall k | k !in g.claims :: UnsignedAt(g, k))
    && (forall w | w in g.phase :: g.phase[w] == Idle)
  }

  ghost predicate Execution(gs: seq<Global>, steps: seq<Action>) {
    && |gs| == |steps| + 1 && Initial(gs[0])
    && forall i :: 0 <= i < |steps| ==> Next(gs[i], steps[i], gs[i + 1])
  }

  lemma {:induction false} ExecutionKeepsInv(gs: seq<Global>, steps: seq<Action>, i: nat)
    requires Execution(gs, steps) && i < |gs|
    ensures Inv(gs[i])
  {
    if i > 0 {
      ExecutionKeepsInv(gs, steps, i - 1);
      NextKeepsInv(gs[i - 1], steps[i - 1], gs[i]);
    } else {
      hide RunOk, Open;
    }
  }

  /** No counterparty ever has two open calls. */
  lemma NeverTwoOpenCalls(gs: seq<Global>, steps: seq<Action>, i: nat, k: Key, k': Key)
    requires Execution(gs, steps) && i < |gs|
    requires k in gs[i].runs && k' in gs[i].runs && k.cp == k'.cp && Open(gs[i].runs[k]) && Open(gs[i].runs[k'])
    ensures k == k'
  {
    hide RunOk, Open;
    ExecutionKeepsInv(gs, steps, i);
    assert OpenAt(gs[i].runs, k, k.cp) && OpenAt(gs[i].runs, k', k.cp) && AtMostOneOpen(gs[i].runs, k.cp);
  }

  /** At most one worker at a time holds a counterparty's lease, and it is the one whose
      clock value the row carries. */
  lemma LeaseIsExclusive(gs: seq<Global>, steps: seq<Action>, i: nat, w: Worker, w': Worker)
    requires Execution(gs, steps) && i < |gs|
    requires w in gs[i].phase && w' in gs[i].phase && HoldsLease(gs[i].phase[w]) && HoldsLease(gs[i].phase[w'])
    requires gs[i].phase[w].key.cp == gs[i].phase[w'].key.cp
    ensures w == w'
    ensures var p := gs[i].phase[w]; p.key.cp in gs[i].leases && gs[i].leases[p.key.cp] == p.since
  {
    hide RunOk, Open;
    ExecutionKeepsInv(gs, steps, i);
  }

  /** In every reachable state, each run on record is sound, so a notice attempt was
      preceded by the signatures it needs and every later figure is the signed one. */
  lemma ReachableNoticeWasSigned(gs: seq<Global>, steps: seq<Action>, i: nat, k: Key, n: nat)
    requires Execution(gs, steps) && i < |gs| && k in gs[i].runs
    requires var t := Trail(gs[i].runs[k].log); n < |t| && t[n].NoticeAttempted?
    ensures var r := gs[i].runs[k]; var t := Trail(r.log);
      && n >= 1 && t[0].FirstSigned? && t[0].decision in {Approved, Adjusted} && Signed(r.values)
      && (r.values.tier == Some(Elite) ==>
            n == 3 && t[2].SecondSigned? && t[2].verdict == Ratified && t[2].who != t[0].who)
      && r.values.breach.Some? && t[n].amount == EffectiveAmount(r.values)
  {
    ExecutionKeepsInv(gs, steps, i);
    var r := gs[i].runs[k];
    assert RunOk(r);
    NoticeNeedsSignatures(r, n);
    QuotesAgree(r);
    assert Trail(r.log)[n] in Trail(r.log);
  }

  // ----- signatures stand ------------------------------------------------------------------------

  lemma StepFreezesSigned(g: Global, a: Action, k: Key)
    requires Inv(g) && Enabled(g, a) && k in g.runs && g.runs[k].values.approval.Some?
    ensures Called(g.runs[k].values) && k in Effect(g, a).runs && Later(g.runs[k], Effect(g, a).runs[k])
  {
    assert RunOk(g.runs[k]);
    LaterThanItself(g.runs[k]);
    if a.Dispatch? {
      DispatchLeavesSigned(g, a.w, a.world, k);
      hide RunOk, Called, Later, Applied;
    } else {
      hide RunOk, Called, Later, Enabled, Effect;
      if PersonKey(a) == Some(k) {
        PersonFreezes(g, a, k);
      } else {
        OthersLeaveRun(g, a, k);
      }
    }
  }

  lemma LaterThanItself(r: Run)
    requires RunOk(r) && r.values.approval.Some?
    ensures r.place != Paused(AwaitApproval, []) && Called(r.values) && Later(r, r)
  {
    assert SignedFits(r);
  }

  lemma PersonFreezes(g: Global, a: Action, k: Key)
    requires Enabled(g, a) && PersonKey(a) == Some(k) && k in g.runs && g.runs[k].place != Paused(AwaitApproval, [])
    requires RunOk(g.runs[k]) && g.runs[k].values.approval.Some? && Called(g.runs[k].values)
    ensures k in Effect(g, a).runs && Later(g.runs[k], Effect(g, a).runs[k])
  {
    hide RunOk, Called, Later, SignFirst, SignSecond, SlaResume;
    if a.ApproveSecond? {
      SecondSignatureFreezes(g.runs[k], a.verdict, a.who, a.world);
    } else {
      SlaResumeFreezes(g.runs[k], a.signal, a.world);
    }
  }

  lemma OthersLeaveRun(g: Global, a: Action, k: Key)
    requires Enabled(g, a) && !a.Dispatch? && PersonKey(a) != Some(k) && k in g.runs
    ensures k in Effect(g, a).runs && Effect(g, a).runs[k] == g.runs[k]
  {
    hide SignFirst, SignSecond, SlaResume, Finds;
  }

  lemma DispatchLeavesSigned(g: Global, w: Worker, world: World, k: Key)
    requires Inv(g) && w in g.phase && g.phase[w].Looked? && k in g.runs && g.runs[k].values.approval.Some?
    requires g.phase[w].seen.Some? ==> g.phase[w].seen.value.0 in g.runs
    ensures var p := g.phase[w]; var runs' := Applied(g.runs, p.key, p.trigger, p.seen, world);
      k in runs' && runs'[k] == g.runs[k]
  {
    hide RunOk, Start, Reevaluate, IntradayGate, OpenStage;
    var p := g.phase[w];
    assert SeenOk(g, p) && Active(p);
    if p.seen.Some? && Judge(Some(p.seen.value.1), p.trigger, world) == ReevaluateCall {
      assert MayReevaluate(p.seen.value.1, p.trigger);
      MayReevaluateIsUnsigned(p.seen.value.1, p.trigger);
    }
  }

  /** From the first signature on, whatever workers, people and clients do later: the
      decision stands unless the manager overturns it, the effective amount never
      changes while it stands, a sent notice stays sent, a resolved outcome never
      changes, and nothing on record is rewritten. */
  lemma {:induction false} SignedCallStands(gs: seq<Global>, steps: seq<Action>, i: nat, j: nat, k: Key)
    requires Execution(gs, steps) && i <= j < |gs| && k in gs[i].runs && gs[i].runs[k].values.approval.Some?
    ensures k in gs[j].runs && Called(gs[i].runs[k].values) && Later(gs[i].runs[k], gs[j].runs[k])
    decreases j - i
  {
    ExecutionKeepsInv(gs, steps, i);
    assert RunOk(gs[i].runs[k]);
    if i < j {
      hide Inv, Later, RunOk, Called;
      assert Next(gs[i], steps[i], gs[i + 1]);
      StepFreezesSigned(gs[i], steps[i], k);
      LaterIsSigned(gs[i].runs[k], gs[i + 1].runs[k]);
      SignedCallStands(gs, steps, i + 1, j, k);
      LaterIsTransitive(gs[i].runs[k], gs[i + 1].runs[k], gs[j].runs[k]);
    }
  }

  lemma LaterIsSigned(r: Run, r': Run)
    requires Called(r.values) && r.values.approval.Some? && Later(r, r')
    ensures Called(r'.values) && r'.values.approval.Some?
  {
  }

  // ----- one dispatch per trigger ------------------------------------------------------------------

  /** The step dispatches the trigger and counterparty of `k`. */
  predicate DispatchesFor(g: Global, a: Action, k: Key) {
    a.Dispatch? && a.w in g.phase && g.phase[a.w].Looked? && g.phase[a.w].key == k
  }

  lemma SettledStays(g: Global, a: Action, k: Key)
    requires Enabled(g, a) && Settled(g, k)
    ensures Settled(Effect(g, a), k)
    ensures !(a.Claim? && a.key == k) && !DispatchesFor(g, a, k)
  {
    hide RunOk, Open, SignFirst, SignSecond, SlaResume, Applied, Finds;
    if a.Dispatch? {
      assert Active(g.phase[a.w]);
    }
    if a.ReadLease? || a.InsertLease? || a.Look? {
      assert Active(g.phase[a.w]);
    }
    if a.Release? || a.ReleaseFails? || a.Fail? {
      assert Active(g.phase[a.w]);
    }
  }

  /** A trigger is worked on for a counterparty by one worker at a time, and that one holds
      the claim. */
  lemma OneWorkerPerClaim(gs: seq<Global>, steps: seq<Action>, i: nat, w: Worker, w': Worker)
    requires Execution(gs, steps) && i < |gs| && w in gs[i].phase && w' in gs[i].phase
    requires Active(gs[i].phase[w]) && Active(gs[i].phase[w']) && gs[i].phase[w].key == gs[i].phase[w'].key
    ensures w == w' && gs[i].phase[w].key in gs[i].claims
  {
    hide RunOk, Open;
    ExecutionKeepsInv(gs, steps, i);
  }

  /** The step by which a dispatch for `k` has returned or was held: its claim is kept. */
  predicate Finishes(g: Global, a: Action, k: Key) {
    a.Release? && a.w in g.phase && g.phase[a.w].Finishing? && g.phase[a.w].keep && g.phase[a.w].key == k
  }

  /** A claim row left standing by an error: building the graph failed right after it was
      taken, or giving it back failed. */
  predicate Strands(g: Global, a: Action, k: Key) {
    (a.BuildFails? && a.w in g.phase && g.phase[a.w].Claimed? && g.phase[a.w].key == k)
    || (a.GiveBackFails? && a.w in g.phase && g.phase[a.w].GivingBack? && g.phase[a.w].key == k)
  }

  lemma ClaimSettles(g: Global, a: Action, k: Key)
    requires Inv(g) && Enabled(g, a) && (Finishes(g, a, k) || Strands(g, a, k))
    ensures Settled(Effect(g, a), k)
  {
    hide RunOk, Open;
    assert Active(g.phase[a.w]);
  }

  /** Once a dispatch has returned or was held, or an error left its claim standing, the
      trigger and counterparty are never claimed or dispatched again. */
  lemma {:induction false} DispatchedAtMostOnce(gs: seq<Global>, steps: seq<Action>, i: nat, j: nat, k: Key)
    requires Execution(gs, steps) && i < j < |gs|
    requires Finishes(gs[i], steps[i], k) || Strands(gs[i], steps[i], k)
    ensures Settled(gs[j], k)
    ensures j < |steps| ==> !(steps[j].Claim? && steps[j].key == k) && !DispatchesFor(gs[j], steps[j], k)
    decreases j
  {
    hide RunOk, Open, Applied, Effect, Inv;
    assert Next(gs[j - 1], steps[j - 1], gs[j]);
    if j == i + 1 {
      ExecutionKeepsInv(gs, steps, i);
      ClaimSettles(gs[i], steps[i], k);
    } else {
      DispatchedAtMostOnce(gs, steps, i, j - 1, k);
      SettledStays(gs[j - 1], steps[j - 1], k);
    }
    if j < |steps| {
      assert Next(gs[j], steps[j], gs[j + 1]);
      SettledStays(gs[j], steps[j], k);
    }
  }

  /** A worker died at work on `k`. */
  predicate DiesOn(g: Global, a: Action, k: Key) {
    a.Crash? && a.w in g.phase && Active(g.phase[a.w]) && g.phase[a.w].key == k
  }

  /** What a standing claim means: it was there from the start, or a worker is at work on it,
      or since then a dispatch for it returned or was held, an error left it standing, or the
      worker at work on it died. */
  lemma {:induction false} StandingClaimMeans(gs: seq<Global>, steps: seq<Action>, j: nat, k: Key)
    requires Execution(gs, steps) && j < |gs| && k in gs[j].claims
    ensures || k in gs[0].claims
            || (exists w :: w in gs[j].phase && Active(gs[j].phase[w]) && gs[j].phase[w].key == k)
            || (exists i :: 0 <= i < j && Leaves(gs[i], steps[i], k))
  {
    hide Next, Initial, Leaves;
    if j > 0 {
      assert Next(gs[j - 1], steps[j - 1], gs[j - 1 + 1]);
      ClaimOrigin(gs[j - 1], steps[j - 1], gs[j], k);
      if k in gs[j - 1].claims {
        StandingClaimMeans(gs, steps, j - 1, k);
      }
    }
  }

  predicate Leaves(g: Global, a: Action, k: Key) {
    Finishes(g, a, k) || Strands(g, a, k) || DiesOn(g, a, k)
  }

  lemma ClaimOrigin(g: Global, a: Action, g': Global, k: Key)
    requires Next(g, a, g') && k in g'.claims
    ensures k !in g.claims ==>
      a.Claim? && a.key == k && a.w in g'.phase && Active(g'.phase[a.w]) && g'.phase[a.w].key == k
    ensures forall w | w in g.phase && Active(g.phase[w]) && g.phase[w].key == k ::
      w in g'.phase && ((Active(g'.phase[w]) && g'.phase[w].key == k) || Leaves(g, a, k))
  {
    hide RunOk, Open, SignFirst, SignSecond, SlaResume, Applied, Finds, UnderReview;
  }

  // ----- why the hypotheses are there ------------------------------------------------------------

  /** What the code allows without the hypotheses. */
  ghost predicate Unguarded(g: Global, steps: seq<Action>, g': Global)
    decreases |steps|
  {
    if steps == [] then g' == g
    else Enabled(g, steps[0]) && Unguarded(Effect(g, steps[0]), steps[1..], g')
  }

  lemma UnguardedTwo(g: Global, a: Action, b: Action, g': Global)
    requires Enabled(g, a) && Enabled(Effect(g, a), b) && g' == Effect(Effect(g, a), b)
    ensures Unguarded(g, [a, b], g')
  {
    hide Enabled, Effect;
    assert [a, b][1..] == [b] && [b][1..] == [];
    assert Unguarded(g', [], g');
    assert Unguarded(Effect(g, a), [b], g');
  }

  lemma {:induction false} UnguardedThen(g: Global, steps: seq<Action>, g': Global, more: seq<Action>, g'': Global)
    requires Unguarded(g, steps, g') && Unguarded(g', more, g'')
    ensures Unguarded(g, steps + more, g'')
    decreases |steps|
  {
    hide Enabled, Effect;
    if steps == [] {
      assert steps + more == more;
    } else {
      assert (steps + more)[1..] == steps[1..] + more;
      UnguardedThen(Effect(g, steps[0]), steps[1..], g', more, g'');
    }
  }

  lemma ExpiredLeaseIsTaken(g: Global, u: Worker, k: Key, t: Trigger) returns (g': Global)
    requires At(g, u, Claimed(k, t)) && k.cp in g.leases && g.now - g.leases[k.cp] >= LEASE_TTL
    ensures Unguarded(g, [InsertLease(u), ReadLease(u)], g')
    ensures g' == g.(leases := g.leases[k.cp := g.now], phase := g.phase[u := Leased(k, t, g.now)])
  {
    var g1 := Effect(g, InsertLease(u));
    assert g1 == g.(phase := g.phase[u := LeaseTaken(k, t, g.now)]);
    g' := Effect(g1, ReadLease(u));
    UnguardedTwo(g, InsertLease(u), ReadLease(u), g');
    assert g'.phase == g.phase[u := Leased(k, t, g.now)];
  }

  lemma BothLook(g: Global, w: Worker, u: Worker, k: Key, k': Key, t: Trigger, t': Trigger, at: int, at': int)
    returns (g': Global)
    requires w != u && k.cp == k'.cp && At(g, w, Leased(k, t, at)) && At(g, u, Leased(k', t', at'))
    requires forall j :: !OpenAt(g.runs, j, k.cp)
    ensures Unguarded(g, [Look(w, None), Look(u, None)], g')
    ensures g' == g.(phase := g.phase[w := Looked(k, t, at, None)][u := Looked(k', t', at', None)])
  {
    hide Open;
    var g1 := Effect(g, Look(w, None));
    assert g1 == g.(phase := g.phase[w := Looked(k, t, at, None)]);
    g' := Effect(g1, Look(u, None));
    UnguardedTwo(g, Look(w, None), Look(u, None), g');
  }

  lemma BothDispatch(g: Global, w: Worker, u: Worker, k: Key, k': Key, t: Trigger, t': Trigger, at: int, at': int,
                     world: World, world': World) returns (g': Global)
    requires w != u && k != k' && At(g, w, Looked(k, t, at, None)) && At(g, u, Looked(k', t', at', None))
    requires k !in g.runs && k' !in g.runs
    ensures Unguarded(g, [Dispatch(w, world, true), Dispatch(u, world', true)], g')
    ensures g'.runs == g.runs[k := Start(None, t, k.cp, world)][k' := Start(None, t', k'.cp, world')]
  {
    hide Start;
    var g1 := Effect(g, Dispatch(w, world, true));
    assert g1.runs == g.runs[k := Start(None, t, k.cp, world)];
    g' := Effect(g1, Dispatch(u, world', true));
    UnguardedTwo(g, Dispatch(w, world, true), Dispatch(u, world', true), g');
  }

  /** Two live dispatches on one lease: a worker still at work when its lease expires lets
      a second one in, both find no open call, and - in some worlds, whatever the two
      triggers without price moves - both raise one. */
  lemma OverlongDispatchOpensTwo(g: Global, w: Worker, u: Worker, k: Key, k': Key, t: Trigger, t': Trigger, since: int)
    returns (steps: seq<Action>, g': Global)
    requires w != u && k != k' && k.cp == k'.cp && t.moves == [] && t'.moves == []
    requires At(g, w, Leased(k, t, since)) && At(g, u, Claimed(k', t'))
    requires k.cp in g.leases && since == g.leases[k.cp] && g.now - since >= LEASE_TTL
    requires g.runs == map[]
    ensures Unguarded(g, steps, g')
    ensures OpenAt(g'.runs, k, k.cp) && OpenAt(g'.runs, k', k.cp) && !AtMostOneOpen(g'.runs, k.cp)
  {
    hide Start, Open, Enabled, Effect, Unguarded;
    var world := SomeWorldRaises(t, k.cp);
    var world' := SomeWorldRaises(t', k'.cp);
    var g1 := ExpiredLeaseIsTaken(g, u, k', t');
    var g2 := BothLook(g1, w, u, k, k', t, t', since, g.now);
    g' := BothDispatch(g2, w, u, k, k', t, t', since, g.now, world, world');
    UnguardedThen(g1, [Look(w, None), Look(u, None)], g2, [Dispatch(w, world, true), Dispatch(u, world', true)], g');
    steps := [InsertLease(u), ReadLease(u)]
      + ([Look(w, None), Look(u, None)] + [Dispatch(w, world, true), Dispatch(u, world', true)]);
    UnguardedThen(g, [InsertLease(u), ReadLease(u)], g1, steps[2..], g');
  }

  /** Re-evaluating a run that was rejected meanwhile: if it pauses, it pauses for a
      first approval it already has, the policy does not see it as open, and approving
      it opens it. */
  lemma RejectedThenReevaluated(r: Run, t: Trigger, updated: seq<string>, who: string, world: World)
    requires RunOk(r) && r.place == Paused(AwaitApproval, []) && updated != []
    requires Reevaluate(r, t, updated, world).place == Paused(AwaitApproval, [])
    ensures r.values.breach.Some?
    ensures var r' := Reevaluate(SignFirst(r, Rejected, None, who, world), t, updated, world);
      && r'.place == Paused(AwaitApproval, []) && !Open(r') && !RunOk(r') && Called(r'.values)
      && r'.values.sentAt == None && r'.values.sla == None && !r'.values.escalated
  {
    hide ComputeExposureNode, FetchCsaNode, EvaluateNode, FromStart, TrailFits;
    var rejected := SignFirst(r, Rejected, None, who, world);
    var v := r.values.(trigger := Some(t), updatedBy := updated);
    var v' := rejected.values.(trigger := Some(t), updatedBy := updated);
    SameEvaluation(v, v', r.log, rejected.log, world);
    SignedStaysSigned(v', rejected.log, world);
  }

  lemma ApprovedIsOpen(r: Run, who: string, world: World)
    requires Called(r.values) && r.values.sentAt == None && r.values.sla == None && !r.values.escalated
    requires SendNotification !in world.raises && world.delivery.Sent?
    ensures Open(SignFirst(r, Approved, None, who, world))
  {
  }

  /** A signature between reading the stage and re-evaluating: any unsigned call, read by a
      worker with any new trigger without price moves. The call is rejected; in some world the
      stale dispatch re-arms its gate, and the run, unseen by the policy, can be approved back
      open beside any call raised meanwhile. */
  lemma SignatureDuringReviewRearmsGate(g: Global, w: Worker, key: Key, since: int, k: Key, t: Trigger, who: string)
    returns (world: World, g': Global)
    requires k in g.runs && RunOk(g.runs[k]) && g.runs[k].place == Paused(AwaitApproval, [])
    requires At(g, w, Looked(key, t, since, Some((k, g.runs[k].values)))) && t.moves == []
    requires t.eventId != g.runs[k].values.impact.eventId && t.eventId !in g.runs[k].values.updatedBy
    ensures Unguarded(g, [ApproveFirst(k, Rejected, None, who, world), Dispatch(w, world, true)], g')
    ensures k in g'.runs && g'.runs[k].place == Paused(AwaitApproval, []) && !Open(g'.runs[k]) && !RunOk(g'.runs[k])
    ensures g'.runs[k].values.breach.Some?
    ensures forall who': string, world': World | SendNotification !in world'.raises && world'.delivery.Sent? ::
      Open(SignFirst(g'.runs[k], Approved, None, who', world'))
  {
    world := SomeWorld(0.0);
    var r := g.runs[k];
    var updated := r.values.updatedBy + [t.eventId];
    assert |updated| > 0;
    UnsignedCallIsReevaluated(r, t, world);
    hide Judge, Reevaluate, RunOk, Open, SignFirst, Smooth, BreachIn;
    RejectedThenReevaluated(r, t, updated, who, world);
    g' := RejectedBeforeDispatch(g, w, key, since, k, t, who, world);
    forall who': string, world': World | SendNotification !in world'.raises && world'.delivery.Sent?
      ensures Open(SignFirst(g'.runs[k], Approved, None, who', world'))
    {
      ApprovedIsOpen(g'.runs[k], who', world');
    }
  }

  lemma RejectedBeforeDispatch(
      g: Global, w: Worker, key: Key, since: int, k: Key, t: Trigger, who: string, world: World) returns (g': Global)
    requires k in g.runs && g.runs[k].place == Paused(AwaitApproval, []) && g.runs[k].values.breach.Some?
    requires At(g, w, Looked(key, t, since, Some((k, g.runs[k].values))))
    requires Judge(Some(g.runs[k].values), t, world) == ReevaluateCall
    ensures Unguarded(g, [ApproveFirst(k, Rejected, None, who, world), Dispatch(w, world, true)], g') && k in g'.runs
    ensures var updated := g.runs[k].values.updatedBy + [t.eventId];
      g'.runs[k] == Reevaluate(SignFirst(g.runs[k], Rejected, None, who, world), t, updated, world)
  {
    hide Judge, Reevaluate, SignFirst, Unguarded;
    var a, b := ApproveFirst(k, Rejected, None, who, world), Dispatch(w, world, true);
    var g1 := Effect(g, a);
    assert g1 == g.(runs := g.runs[k := SignFirst(g.runs[k], Rejected, None, who, world)]);
    g' := Effect(g1, b);
    UnguardedTwo(g, a, b, g');
  }

  lemma UnsignedCallIsReevaluated(r: Run, t: Trigger, world: World)
    requires RunOk(r) && r.place == Paused(AwaitApproval, []) && t.moves == []
    requires t.eventId != r.values.impact.eventId && t.eventId !in r.values.updatedBy
    requires Smooth(world, []) && BreachIn(world).breached
    ensures Judge(Some(r.values), t, world) == ReevaluateCall
    ensures Reevaluate(r, t, r.values.updatedBy + [t.eventId], world).place == Paused(AwaitApproval, [])
  {
    var updated := r.values.updatedBy + [t.eventId];
    assert |updated| > 0;
    ReevaluatedRunMeaning(r, t, updated, world);
    hide Reevaluate, Smooth, BreachIn;
  }

  /** A first signature on a run whose claim was given back: the call is rejected, the
      redelivered trigger claims the run again, finds no open call and starts it anew;
      approved this time, the rejected call is open. */
  lemma GivenBackClaimReopensRejectedCall(g: Global, w: Worker, k: Key, t: Trigger, who: string)
    returns (world: World, steps: seq<Action>, g': Global)
    requires At(g, w, Idle) && k !in g.claims && k.cp !in g.leases && t.eventId == k.event && t.moves == []
    requires k in g.runs && RunOk(g.runs[k]) && g.runs[k].place == Paused(AwaitApproval, [])
    requires g.runs[k].values.trigger.Some? ==> g.runs[k].values.trigger.value.moves == []
    requires forall j | OpenAt(g.runs, j, k.cp) :: j == k
    ensures steps != [] && steps[0] == ApproveFirst(k, Rejected, None, who, world)
    ensures Unguarded(g, steps, g') && k in g'.runs && Open(g'.runs[k])
  {
    world := SomeWorld(0.0);
    var r := g.runs[k];
    PausedIsOpen(r);
    RejectedIsClosed(r, who, world);
    hide Start, RunOk, Open, SignFirst, Unguarded, Smooth, BreachIn, Enabled, Effect;
    var rejected := SignFirst(r, Rejected, None, who, world);
    var g1 := g.(runs := g.runs[k := rejected]);
    FirstSignatureStep(g, k, Rejected, who, world, g1);
    NoneOpenAfter(g.runs, k, rejected, g1.runs);
    var restarted := Start(Some(rejected), t, k.cp, world);
    RejectedRestarts(rejected, t, k.cp, world, who);
    var started := StartsAgain(g1, w, k, t, world);
    g' := started.(runs := started.runs[k := SignFirst(restarted, Approved, None, who, world)]);
    FirstSignatureStep(started, k, Approved, who, world, g');
    var restart := [Claim(w, k, t), InsertLease(w)] + [Look(w, None), Dispatch(w, world, true)];
    UnguardedThen(g1, restart, started, [ApproveFirst(k, Approved, None, who, world)], g');
    var rest := restart + [ApproveFirst(k, Approved, None, who, world)];
    steps := [ApproveFirst(k, Rejected, None, who, world)] + rest;
    UnguardedThen(g, [ApproveFirst(k, Rejected, None, who, world)], g1, rest, g');
  }

  lemma RejectedIsClosed(r: Run, who: string, world: World)
    requires RunOk(r) && r.place == Paused(AwaitApproval, [])
    ensures r.values.breach.Some?
    ensures var r' := SignFirst(r, Rejected, None, who, world);
      && RunOk(r') && !Open(r') && r'.values.approval == Some(Rejected) && r'.values.trigger == r.values.trigger
  {
    SignFirstKeepsOk(r, Rejected, None, who, world);
    hide RunOk;
  }

  lemma NoneOpenAfter(runs: map<Key, Run>, k: Key, r': Run, runs': map<Key, Run>)
    requires runs' == runs[k := r'] && !Open(r') && forall j | OpenAt(runs, j, k.cp) :: j == k
    ensures forall j :: !OpenAt(runs', j, k.cp)
  {
    hide Open;
    forall j ensures !OpenAt(runs', j, k.cp) {
      assert j != k ==> (OpenAt(runs', j, k.cp) <==> OpenAt(runs, j, k.cp));
    }
  }

  lemma FirstSignatureStep(g: Global, k: Key, d: FirstDecision, who: string, world: World, g': Global)
    requires k in g.runs && g.runs[k].place == Paused(AwaitApproval, []) && g.runs[k].values.breach.Some?
    requires g' == g.(runs := g.runs[k := SignFirst(g.runs[k], d, None, who, world)])
    ensures Unguarded(g, [ApproveFirst(k, d, None, who, world)], g')
  {
    hide SignFirst, Unguarded;
    UnguardedOne(g, ApproveFirst(k, d, None, who, world), g');
  }

  lemma RejectedRestarts(r: Run, t: Trigger, cp: string, world: World, who: string)
    requires RunOk(r) && r.values.approval == Some(Rejected) && t.moves == []
    requires r.values.trigger.Some? ==> r.values.trigger.value.moves == []
    requires Smooth(world, []) && BreachIn(world).breached && world.raises == {} && world.delivery.Sent?
    ensures var r' := Start(Some(r), t, cp, world);
      && r'.place == Paused(AwaitApproval, []) && r'.values.breach.Some?
      && Open(SignFirst(r', Approved, None, who, world))
  {
    RejectedHoldsNothing(r);
    var v := r.values.(impact := t, cp := cp);
    EvaluationMeaning(v, r.log, world);
    SignedStaysSigned(v, r.log, world);
    hide RunOk, FromStart, Open, SignFirst, Smooth, BreachIn;
    ApprovedIsOpen(Start(Some(r), t, cp, world), who, world);
  }

  lemma StartsAgain(g: Global, w: Worker, k: Key, t: Trigger, world: World) returns (started: Global)
    requires At(g, w, Idle) && k !in g.claims && k.cp !in g.leases && t.eventId == k.event
    requires k in g.runs && forall j :: !OpenAt(g.runs, j, k.cp)
    ensures Unguarded(g, [Claim(w, k, t), InsertLease(w)] + [Look(w, None), Dispatch(w, world, true)], started)
    ensures started.runs == g.runs[k := Start(Some(g.runs[k]), t, k.cp, world)]
  {
    hide Start, Open, Unguarded, Enabled, Effect;
    var claimed := g.(claims := g.claims + {k}, phase := g.phase[w := Claimed(k, t)]);
    var leased := claimed.(leases := g.leases[k.cp := g.now], phase := g.phase[w := Leased(k, t, g.now)]);
    ClaimAndLease(g, w, k, t, claimed, leased);
    var looked := leased.(phase := leased.phase[w := Looked(k, t, g.now, None)]);
    started := looked.(runs := g.runs[k := Start(Some(g.runs[k]), t, k.cp, world)],
                       phase := leased.phase[w := Finishing(k, g.now, true)]);
    LookAndStart(leased, w, k, t, g.now, world, looked, started);
    UnguardedThen(g, [Claim(w, k, t), InsertLease(w)], leased, [Look(w, None), Dispatch(w, world, true)], started);
  }

  lemma RejectedHoldsNothing(r: Run)
    requires RunOk(r) && r.values.approval == Some(Rejected)
    ensures NothingSent(r.values)
  {
  }

  lemma UnguardedOne(g: Global, a: Action, g': Global)
    requires Enabled(g, a) && g' == Effect(g, a)
    ensures Unguarded(g, [a], g')
  {
    hide Enabled, Effect;
    assert [a][1..] == [];
    assert Unguarded(g', [], g');
  }

  lemma ClaimAndLease(g: Global, w: Worker, k: Key, t: Trigger, claimed: Global, leased: Global)
    requires At(g, w, Idle) && k !in g.claims && k.cp !in g.leases && t.eventId == k.event
    requires claimed == g.(claims := g.claims + {k}, phase := g.phase[w := Claimed(k, t)])
    requires leased == claimed.(leases := g.leases[k.cp := g.now], phase := g.phase[w := Leased(k, t, g.now)])
    ensures Unguarded(g, [Claim(w, k, t), InsertLease(w)], leased)
  {
    hide Unguarded;
    assert Effect(g, Claim(w, k, t)) == claimed;
    assert claimed.phase[w := Leased(k, t, g.now)] == g.phase[w := Leased(k, t, g.now)];
    assert Effect(claimed, InsertLease(w)) == leased;
    UnguardedTwo(g, Claim(w, k, t), InsertLease(w), leased);
  }

  lemma LookAndStart(
      g: Global, w: Worker, k: Key, t: Trigger, since: int, world: World, looked: Global, started: Global)
    requires At(g, w, Leased(k, t, since)) && k in g.runs && forall j :: !OpenAt(g.runs, j, k.cp)
    requires looked == g.(phase := g.phase[w := Looked(k, t, since, None)])
    requires started == looked.(runs := g.runs[k := Start(Some(g.runs[k]), t, k.cp, world)],
                                phase := g.phase[w := Finishing(k, since, true)])
    ensures Unguarded(g, [Look(w, None), Dispatch(w, world, true)], started)
  {
    hide Unguarded, Start, Open;
    assert Effect(g, Look(w, None)) == looked;
    assert looked.phase[w := Finishing(k, since, true)] == started.phase;
    assert Effect(looked, Dispatch(w, world, true)) == started;
    UnguardedTwo(g, Look(w, None), Dispatch(w, world, true), started);
  }
}
