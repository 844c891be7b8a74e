/** Concurrent and redelivered impact messages (src/streaming/impact_consumer.py): each
    worker of the protocol walks the counterparties of one message at a time, and any
    number of them, people and clients interleave. Every step is a protocol step or leaves
    the shared rows alone, so what `Protocol` proves of executions holds of these. */
module FanOut {
  import opened Wrappers
  import opened MarginRun
  import opened MarginPolicy
  import P = Protocol

  type Worker = P.Worker

  /** What one pass of the loop came to, as far as the claim goes: somebody else had it; it is
      kept after a dispatch or a held error; it was given back, for a busy counterparty or an
      unexpected error; or an error propagates with no claim taken, with the claim standing
      because the graph could not be built, or because it could not be given back. */
  datatype Mark = Skipped | Kept | Busy | Broke | Unclaimed | Unbuilt | Unreleased

  /** One call of handle_impact: `marks` are the passes made. */
  datatype Call = Call(trigger: Trigger, cps: seq<string>, marks: seq<Mark>)

  datatype System = System(g: P.Global, calls: map<Worker, Call>)

  datatype Step =
    | Begin(w: Worker, trigger: Trigger, cps: seq<string>)
    | Skip(w: Worker)
    | ClaimFails(w: Worker)
    | Act(a: P.Action)
    | Return(w: Worker)

  datatype Verdict = Returned | BusyError(cps: seq<string>) | Propagated

  // ----- a call --------------------------------------------------------------------------

  function EntryKey(c: Call, p: nat): Key
    requires p < |c.cps|
  {
    Key(c.trigger.eventId, c.cps[p])
  }

  predicate Breaks(mark: Mark) {
    mark == Broke || mark == Unclaimed || mark == Unbuilt || mark == Unreleased
  }

  /** An error that is not held ends the loop. */
  predicate Stopped(c: Call) {
    c.marks != [] && Breaks(c.marks[|c.marks| - 1])
  }

  predicate AllSkipped(marks: seq<Mark>) {
    forall p :: 0 <= p < |marks| ==> marks[p] == Skipped
  }

  predicate Going(c: Call) {
    !Stopped(c) && |c.marks| < |c.cps|
  }

  function BusyOnes(cps: seq<string>, marks: seq<Mark>): seq<string>
    requires |marks| <= |cps|
  {
    if marks == [] then []
    else
      var n := |marks| - 1;
      BusyOnes(cps, marks[..n]) + (if marks[n] == Busy then [cps[n]] else [])
  }

  function VerdictOf(c: Call): Verdict
    requires |c.marks| <= |c.cps|
  {
    if Stopped(c) then Propagated
    else if BusyOnes(c.cps, c.marks) != [] then BusyError(BusyOnes(c.cps, c.marks))
    else Returned
  }

  // ----- the steps -----------------------------------------------------------------------

  ghost predicate Enabled(s: System, step: Step) {
    match step
    case Begin(w, _, _) => P.At(s.g, w, P.Idle) && w !in s.calls
    case Skip(w) =>
      P.At(s.g, w, P.Idle) && w in s.calls && Going(s.calls[w])
      && EntryKey(s.calls[w], |s.calls[w].marks|) in s.g.claims
    case ClaimFails(w) => P.At(s.g, w, P.Idle) && w in s.calls && Going(s.calls[w])
    case Return(w) =>
      P.At(s.g, w, P.Idle) && w in s.calls && (Stopped(s.calls[w]) || |s.calls[w].marks| == |s.calls[w].cps|)
    case Act(a) =>
      P.Enabled(s.g, a)
      && (a.Claim? ==> a.w in s.calls && Going(s.calls[a.w]) && a.trigger == s.calls[a.w].trigger
                       && a.key == EntryKey(s.calls[a.w], |s.calls[a.w].marks|))
      && (a.BuildFails? ==> a.w in s.calls && AllSkipped(s.calls[a.w].marks))
  }

  function Marked(calls: map<Worker, Call>, w: Worker, mark: Mark): map<Worker, Call> {
    if w in calls then calls[w := calls[w].(marks := calls[w].marks + [mark])] else calls
  }

  /** The calls after a protocol step: keeping, giving back or stranding a claim ends a pass,
      and a crash ends the call without a verdict. The graph is built once a call, after its
      first claim. */
  ghost function CallsAfter(s: System, a: P.Action): map<Worker, Call>
    requires P.Enabled(s.g, a)
  {
    match a
    case Release(w) => if s.g.phase[w].keep then Marked(s.calls, w, Kept) else s.calls
    case GiveBack(w) => Marked(s.calls, w, if s.g.phase[w].busy then Busy else Broke)
    case BuildFails(w) => Marked(s.calls, w, Unbuilt)
    case GiveBackFails(w) => Marked(s.calls, w, Unreleased)
    case Crash(w) => s.calls - {w}
    case _ => s.calls
  }

  ghost function Effect(s: System, step: Step): System
    requires Enabled(s, step)
  {
    match step
    case Begin(w, trigger, cps) => s.(calls := s.calls[w := Call(trigger, cps, [])])
    case Skip(w) => s.(calls := Marked(s.calls, w, Skipped))
    case ClaimFails(w) => s.(calls := Marked(s.calls, w, Unclaimed))
    case Return(w) => s.(calls := s.calls - {w})
    case Act(a) => System(P.Effect(s.g, a), CallsAfter(s, a))
  }

  /** The protocol step it takes; one that leaves the rows alone is the clock standing still. */
  function ProtocolStep(s: System, step: Step): P.Action {
    if step.Act? then step.a else P.Tick(s.g.now)
  }

  ghost predicate Next(s: System, step: Step, s': System) {
    Enabled(s, step) && (step.Act? ==> P.Next(s.g, step.a, P.Effect(s.g, step.a))) && s' == Effect(s, step)
  }

  ghost predicate Execution(ss: seq<System>, steps: seq<Step>) {
    && |ss| == |steps| + 1 && P.Initial(ss[0].g) && ss[0].calls == map[]
    && forall i :: 0 <= i < |steps| ==> Next(ss[i], steps[i], ss[i + 1])
  }

  // ----- it is the protocol ---------------------------------------------------------------

  lemma StepIsProtocolStep(s: System, step: Step, s': System)
    requires P.Inv(s.g) && Next(s, step, s')
    ensures P.Next(s.g, ProtocolStep(s, step), s'.g)
  {
    if !step.Act? {
      StandingStill(s.g);
    }
  }

  lemma StandingStill(g: P.Global)
    requires P.Inv(g)
    ensures P.Next(g, P.Tick(g.now), g)
  {
    hide RunOk, Open;
  }

  lemma {:induction false} KeepsProtocolInv(ss: seq<System>, steps: seq<Step>, i: nat)
    requires Execution(ss, steps) && i < |ss|
    ensures P.Inv(ss[i].g)
  {
    hide P.Inv, Next, P.Initial;
    if i == 0 {
      InitialInv(ss[0].g);
    } else {
      KeepsProtocolInv(ss, steps, i - 1);
      assert Next(ss[i - 1], steps[i - 1], ss[i - 1 + 1]);
      StepIsProtocolStep(ss[i - 1], steps[i - 1], ss[i]);
      P.NextKeepsInv(ss[i - 1].g, ProtocolStep(ss[i - 1], steps[i - 1]), ss[i].g);
    }
  }

  lemma InitialInv(g: P.Global)
    requires P.Initial(g)
    ensures P.Inv(g)
  {
    var gs, none: seq<P.Action> := [g], [];
    assert P.Execution(gs, none);
    P.ExecutionKeepsInv(gs, none, 0);
  }

  /** Forgetting the calls, every execution is one of the protocol. */
  lemma IsProtocolExecution(ss: seq<System>, steps: seq<Step>)
    requires Execution(ss, steps)
    ensures P.Execution(seq(|ss|, i requires 0 <= i < |ss| => ss[i].g),
                        seq(|steps|, i requires 0 <= i < |steps| => ProtocolStep(ss[i], steps[i])))
  {
    hide P.Inv, Next, P.Initial, P.Next;
    var gs := seq(|ss|, i requires 0 <= i < |ss| => ss[i].g);
    var actions := seq(|steps|, i requires 0 <= i < |steps| => ProtocolStep(ss[i], steps[i]));
    forall i | 0 <= i < |steps| ensures P.Next(gs[i], actions[i], gs[i + 1]) {
      KeepsProtocolInv(ss, steps, i);
      assert Next(ss[i], steps[i], ss[i + 1]);
      StepIsProtocolStep(ss[i], steps[i], ss[i + 1]);
    }
  }

  // ----- what the calls keep ---------------------------------------------------------------

  /** A busy worker is on the entry its call has come to. */
  ghost predicate WorkerOk(s: System, w: Worker)
    requires w in s.g.phase
  {
    var p := s.g.phase[w];
    && (p.Crashed? ==> w !in s.calls)
    && (p != P.Idle && p != P.Crashed ==>
          w in s.calls && Going(s.calls[w]) && p.key == EntryKey(s.calls[w], |s.calls[w].marks|))
  }

  /** The claim of this pass stands. */
  predicate Stands(mark: Mark) {
    mark == Kept || mark == Unbuilt || mark == Unreleased
  }

  /** Only the last pass can have broken off, building the graph only before any claim of the
      call was dispatched, and a claim left standing stands for good. */
  ghost predicate CallOk(s: System, c: Call) {
    && |c.marks| <= |c.cps|
    && (forall p :: 0 <= p < |c.marks| - 1 ==> !Breaks(c.marks[p]))
    && (forall p :: 0 <= p < |c.marks| && Stands(c.marks[p]) ==> P.Settled(s.g, EntryKey(c, p)))
    && (forall p :: 0 <= p < |c.marks| && c.marks[p] == Unbuilt ==> AllSkipped(c.marks[..p]))
  }

  ghost predicate CallsOk(s: System) {
    && (forall w | w in s.g.phase :: WorkerOk(s, w))
    && (forall w | w in s.calls :: w in s.g.phase && CallOk(s, s.calls[w]))
  }

  lemma SettledOnward(s: System, step: Step, s': System)
    requires Next(s, step, s')
    ensures forall k | P.Settled(s.g, k) :: P.Settled(s'.g, k)
  {
    hide P.Settled, P.Enabled, P.Effect, P.Next;
    if step.Act? {
      forall k | P.Settled(s.g, k) ensures P.Settled(s'.g, k) {
        NextIsEffect(s.g, step.a);
        P.SettledStays(s.g, step.a, k);
      }
    }
  }

  lemma NextIsEffect(g: P.Global, a: P.Action)
    requires P.Enabled(g, a) && P.Next(g, a, P.Effect(g, a))
    ensures P.Enabled(g, a)
  {
  }

  /** Phases are only changed by their own worker. */
  lemma OthersStay(g: P.Global, a: P.Action, w: Worker)
    requires P.Enabled(g, a) && w in g.phase && !(MovesWorker(a) && a.w == w)
    ensures w in P.Effect(g, a).phase && P.Effect(g, a).phase[w] == g.phase[w]
  {
    hide RunOk, Open, SignFirst, SignSecond, SlaResume, Applied, Finds;
  }

  predicate MovesWorker(a: P.Action) {
    || a.Claim? || a.InsertLease? || a.ReadLease? || a.Look? || a.Dispatch? || a.Release? || a.GiveBack?
    || a.BuildFails? || a.Fail? || a.ReleaseFails? || a.GiveBackFails? || a.Join? || a.Crash?
  }

  ghost predicate SettledKept(s: System, s': System) {
    forall k | P.Settled(s.g, k) :: P.Settled(s'.g, k)
  }

  lemma CallOnward(s: System, s': System, c: Call)
    requires CallOk(s, c) && SettledKept(s, s')
    ensures CallOk(s', c)
  {
    hide P.Settled;
  }

  lemma MarkedIsOk(s: System, c: Call, mark: Mark)
    requires CallOk(s, c) && Going(c) && (Stands(mark) ==> P.Settled(s.g, EntryKey(c, |c.marks|)))
    requires mark == Unbuilt ==> AllSkipped(c.marks)
    ensures CallOk(s, c.(marks := c.marks + [mark]))
  {
    hide P.Settled, AllSkipped;
    var c' := c.(marks := c.marks + [mark]);
    assert forall p :: 0 <= p < |c.marks| ==> c'.marks[p] == c.marks[p];
    assert forall p :: 0 <= p <= |c.marks| ==> c'.marks[..p] == c.marks[..p];
    assert c.marks[..|c.marks|] == c.marks;
  }

  /** The worker a step moves, if any. */
  function Mover(step: Step): Option<Worker> {
    match step
    case Act(a) => if MovesWorker(a) then Some(a.w) else None
    case _ => Some(step.w)
  }

  /** What a protocol step does to its own worker and that worker's call. */
  lemma MoverKeepsOk(s: System, a: P.Action)
    requires P.Inv(s.g) && CallsOk(s) && Enabled(s, Act(a)) && MovesWorker(a)
    requires SettledKept(s, Effect(s, Act(a)))
    ensures var s' := Effect(s, Act(a));
      && a.w in s'.g.phase && WorkerOk(s', a.w) && (a.w in s'.calls ==> CallOk(s', s'.calls[a.w]))
  {
    hide P.Settled, RunOk, Open, Finds, Applied, P.ClaimsOk, P.LeasesOk, P.ReadsOk, P.RunsOk, P.OneOpenEach;
    var w, s' := a.w, Effect(s, Act(a));
    assert w in s.g.phase ==> WorkerOk(s, w);
    if w in s.calls {
      CallOnward(s, s', s.calls[w]);
    }
    match a
    case Release(_) =>
      if s.g.phase[w].keep {
        P.ClaimSettles(s.g, a, s.g.phase[w].key);
        MarkedIsOk(s', s.calls[w], Kept);
      }
    case GiveBack(_) =>
      MarkedIsOk(s', s.calls[w], if s.g.phase[w].busy then Busy else Broke);
    case BuildFails(_) =>
      P.ClaimSettles(s.g, a, s.g.phase[w].key);
      MarkedIsOk(s', s.calls[w], Unbuilt);
    case GiveBackFails(_) =>
      P.ClaimSettles(s.g, a, s.g.phase[w].key);
      MarkedIsOk(s', s.calls[w], Unreleased);
    case _ =>
  }

  lemma OwnStepKeepsOk(s: System, step: Step)
    requires CallsOk(s) && Enabled(s, step) && !step.Act?
    ensures var s' := Effect(s, step);
      WorkerOk(s', step.w) && (step.w in s'.calls ==> CallOk(s', s'.calls[step.w]))
  {
    hide P.Settled;
    assert WorkerOk(s, step.w);
    if step.Skip? || step.ClaimFails? {
      var c, mark := s.calls[step.w], if step.Skip? then Skipped else Unclaimed;
      MarkedIsOk(s, c, mark);
      CallOnward(s, Effect(s, step), c.(marks := c.marks + [mark]));
    }
  }

  lemma OthersKeepOk(s: System, step: Step, s': System, u: Worker)
    requires CallsOk(s) && Next(s, step, s') && SettledKept(s, s') && Mover(step) != Some(u)
    ensures u in s.g.phase ==> u in s'.g.phase && WorkerOk(s', u)
    ensures u in s'.calls ==> u in s'.g.phase && CallOk(s', s'.calls[u])
  {
    hide P.Settled, P.Enabled, P.Effect, P.Next;
    if u in s.g.phase {
      assert WorkerOk(s, u);
      if step.Act? {
        OthersStay(s.g, step.a, u);
      }
    }
    if u in s.calls {
      CallOnward(s, s', s.calls[u]);
    }
  }

  lemma SamePhases(g: P.Global, a: P.Action)
    requires P.Enabled(g, a)
    ensures P.Effect(g, a).phase.Keys == g.phase.Keys + (if a.Join? then {a.w} else {})
  {
    hide RunOk, Open, SignFirst, SignSecond, SlaResume, Applied, Finds;
  }

  lemma NextKeepsCallsOk(s: System, step: Step, s': System)
    requires P.Inv(s.g) && CallsOk(s) && Next(s, step, s')
    ensures CallsOk(s')
  {
    SettledOnward(s, step, s');
    hide P.Settled, P.Enabled, P.Effect, P.Next, P.Inv, WorkerOk, CallOk;
    assert SettledKept(s, s');
    if step.Act? {
      SamePhases(s.g, step.a);
    }
    forall u | u in s'.g.phase || u in s'.calls
      ensures u in s'.g.phase && WorkerOk(s', u) && (u in s'.calls ==> CallOk(s', s'.calls[u]))
    {
      if Mover(step) == Some(u) {
        if step.Act? {
          MoverKeepsOk(s, step.a);
        } else {
          OwnStepKeepsOk(s, step);
        }
      } else {
        OthersKeepOk(s, step, s', u);
      }
    }
  }

  lemma {:induction false} ExecutionKeepsCallsOk(ss: seq<System>, steps: seq<Step>, i: nat)
    requires Execution(ss, steps) && i < |ss|
    ensures P.Inv(ss[i].g) && CallsOk(ss[i])
  {
    KeepsProtocolInv(ss, steps, i);
    if i == 0 {
      hide P.Inv;
    } else {
      hide P.Inv, Next, CallsOk, P.Initial;
      ExecutionKeepsCallsOk(ss, steps, i - 1);
      assert Next(ss[i - 1], steps[i - 1], ss[i - 1 + 1]);
      NextKeepsCallsOk(ss[i - 1], steps[i - 1], ss[i]);
    }
  }

  // ----- the passes of a call -----------------------------------------------------------------

  /** `c` has come to `c'`: the same message, with more passes made. */
  predicate ComesTo(c: Call, c': Call) {
    c.trigger == c'.trigger && c.cps == c'.cps && c.marks <= c'.marks
  }

  /** From state `i` to state `j` worker `w` is on the one call it is on in `j`. */
  ghost predicate SameCall(ss: seq<System>, i: nat, j: nat, w: Worker) {
    && i <= j < |ss| && w in ss[j].calls
    && forall m :: i <= m <= j ==> w in ss[m].calls && ComesTo(ss[m].calls[w], ss[j].calls[w])
  }

  /** Step `i` ends pass `p` of the call `w` is on in state `j`. */
  ghost predicate Ends(ss: seq<System>, i: nat, j: nat, w: Worker, p: nat) {
    && i < j && SameCall(ss, i, j, w)
    && |ss[i].calls[w].marks| == p && |ss[i + 1].calls[w].marks| == p + 1
  }

  predicate GivesBack(s: System, step: Step, k: Key) {
    step.Act? && step.a.GiveBack? && step.a.w in s.g.phase && s.g.phase[step.a.w].GivingBack?
    && s.g.phase[step.a.w].key == k
  }

  predicate Claims(step: Step, k: Key) {
    step.Act? && step.a.Claim? && step.a.key == k
  }

  /** The rows of claims change only by claiming and giving back. */
  lemma ClaimsChange(s: System, step: Step, s': System, k: Key)
    requires Next(s, step, s')
    ensures k in s'.g.claims <==> Claims(step, k) || (k in s.g.claims && !GivesBack(s, step, k))
  {
    hide RunOk, Open, SignFirst, SignSecond, SlaResume, Applied, Finds;
  }

  /** What a step does to the call of `w`: nothing, or one more pass, of this meaning. */
  lemma PassMeaning(s: System, step: Step, s': System, w: Worker)
    requires CallsOk(s) && Next(s, step, s') && w in s'.calls
    ensures w !in s.calls ==> s'.calls[w].marks == []
    ensures w in s.calls ==>
      ComesTo(s.calls[w], s'.calls[w]) && |s'.calls[w].marks| <= |s.calls[w].marks| + 1
    ensures w in s.calls && |s'.calls[w].marks| == |s.calls[w].marks| + 1 ==>
      var n := |s.calls[w].marks|;
      n < |s.calls[w].cps| && EndsPass(s, step, w, EntryKey(s.calls[w], n), s'.calls[w].marks[n])
    ensures step == Act(P.GiveBack(w)) ==>
      && w in s.calls && |s'.calls[w].marks| == |s.calls[w].marks| + 1
      && (s'.calls[w].marks[|s.calls[w].marks|] == Busy || s'.calls[w].marks[|s.calls[w].marks|] == Broke)
  {
    hide P.Effect, P.Next, P.Settled, CallOk;
    if w in s.g.phase {
      assert WorkerOk(s, w);
    }
  }

  /** The step that ends a pass for `k` with this mark. */
  ghost predicate EndsPass(s: System, step: Step, w: Worker, k: Key, mark: Mark) {
    w in s.g.phase
    && match mark
       case Skipped => step == Skip(w) && k in s.g.claims
       case Kept => step == Act(P.Release(w)) && s.g.phase[w].Finishing? && s.g.phase[w].keep && s.g.phase[w].key == k
       case Busy => step == Act(P.GiveBack(w)) && GivesBack(s, step, k) && s.g.phase[w].busy
       case Broke => step == Act(P.GiveBack(w)) && GivesBack(s, step, k) && !s.g.phase[w].busy
       case Unclaimed => step == ClaimFails(w)
       case Unbuilt => step == Act(P.BuildFails(w)) && P.Strands(s.g, P.BuildFails(w), k)
       case Unreleased => step == Act(P.GiveBackFails(w)) && P.Strands(s.g, P.GiveBackFails(w), k)
  }

  /** Every pass of a call was ended by one step since the call began. */
  lemma {:induction false} PassEnded(ss: seq<System>, steps: seq<Step>, j: nat, w: Worker, p: nat) returns (i: nat)
    requires Execution(ss, steps) && j < |ss| && w in ss[j].calls && p < |ss[j].calls[w].marks|
    ensures p < |ss[j].calls[w].cps|
    ensures Ends(ss, i, j, w, p) && i < |steps|
    ensures EndsPass(ss[i], steps[i], w, EntryKey(ss[j].calls[w], p), ss[j].calls[w].marks[p])
  {
    hide Next, CallsOk, P.Inv, P.Initial, EndsPass;
    assert j > 0;
    ExecutionKeepsCallsOk(ss, steps, j - 1);
    assert Next(ss[j - 1], steps[j - 1], ss[j - 1 + 1]);
    PassMeaning(ss[j - 1], steps[j - 1], ss[j], w);
    if p < |ss[j - 1].calls[w].marks| {
      i := PassEnded(ss, steps, j - 1, w, p);
      Longer(ss, i, j, w);
    } else {
      i := j - 1;
    }
  }

  lemma Longer(ss: seq<System>, i: nat, j: nat, w: Worker)
    requires 0 < j < |ss| && SameCall(ss, i, j - 1, w) && w in ss[j].calls
             && ComesTo(ss[j - 1].calls[w], ss[j].calls[w])
    ensures SameCall(ss, i, j, w)
  {
    forall m | i <= m <= j ensures w in ss[m].calls && ComesTo(ss[m].calls[w], ss[j].calls[w]) {
      assert m < j ==> ComesTo(ss[m].calls[w], ss[j - 1].calls[w]);
    }
  }

  /** Any claim a call gives back shows among its marks from then on. */
  lemma GivenBackShows(ss: seq<System>, steps: seq<Step>, i: nat, j: nat, w: Worker)
    requires Execution(ss, steps) && i < j && SameCall(ss, i, j, w) && steps[i] == Act(P.GiveBack(w))
    ensures var c, p := ss[j].calls[w], |ss[i].calls[w].marks|;
      && p < |c.marks| && p < |c.cps| && (c.marks[p] == Busy || c.marks[p] == Broke)
      && GivesBack(ss[i], steps[i], EntryKey(c, p))
  {
    hide Next, CallsOk, P.Inv, P.Initial;
    ExecutionKeepsCallsOk(ss, steps, i);
    assert Next(ss[i], steps[i], ss[i + 1]);
    assert ComesTo(ss[i + 1].calls[w], ss[j].calls[w]);
    assert ComesTo(ss[i].calls[w], ss[j].calls[w]);
    PassMeaning(ss[i], steps[i], ss[i + 1], w);
  }

  lemma {:induction false} BusyOnesAre(cps: seq<string>, marks: seq<Mark>, cp: string)
    requires |marks| <= |cps|
    ensures cp in BusyOnes(cps, marks) <==> exists p :: 0 <= p < |marks| && marks[p] == Busy && cps[p] == cp
  {
    if marks != [] {
      var n := |marks| - 1;
      BusyOnesAre(cps, marks[..n], cp);
      assert forall p :: 0 <= p < n ==> marks[..n][p] == marks[p];
    }
  }

  /** A normal verdict: no claim was given back. */
  lemma NormalMarks(c: Call)
    requires |c.marks| <= |c.cps| && VerdictOf(c) == Returned
    requires forall p :: 0 <= p < |c.marks| - 1 ==> !Breaks(c.marks[p])
    ensures forall p :: 0 <= p < |c.marks| ==> c.marks[p] == Kept || c.marks[p] == Skipped
  {
    forall p | 0 <= p < |c.marks| ensures c.marks[p] == Kept || c.marks[p] == Skipped {
      BusyOnesAre(c.cps, c.marks, c.cps[p]);
    }
  }

  // ----- the main results -------------------------------------------------------------------------

  /** Normal return of the fan-out, whoever else is at work: every counterparty's claim was
      taken by this call and is kept for good, or stood when this call tried it. */
  lemma NormalReturn(ss: seq<System>, steps: seq<Step>, j: nat, w: Worker, p: nat) returns (i: nat)
    requires Execution(ss, steps) && j < |steps| && steps[j] == Return(w)
    requires w in ss[j].calls && |ss[j].calls[w].marks| <= |ss[j].calls[w].cps|
    requires VerdictOf(ss[j].calls[w]) == Returned && p < |ss[j].calls[w].cps|
    ensures Ends(ss, i, j, w, p) && |ss[j].calls[w].marks| == |ss[j].calls[w].cps|
    ensures var c := ss[j].calls[w]; var k := EntryKey(c, p);
      || (c.marks[p] == Kept && P.Settled(ss[j].g, k))
      || (c.marks[p] == Skipped && steps[i] == Skip(w) && k in ss[i].g.claims)
  {
    hide P.Inv, P.Initial, P.Settled, P.Effect, P.Enabled, P.Next;
    ExecutionKeepsCallsOk(ss, steps, j);
    assert Next(ss[j], steps[j], ss[j + 1]);
    assert CallOk(ss[j], ss[j].calls[w]);
    NormalMarks(ss[j].calls[w]);
    i := PassEnded(ss, steps, j, w, p);
  }

  /** The last thing done to the claim on `k` between states `i` and `j` is that `u` gave it back. */
  ghost predicate LastGivenBack(ss: seq<System>, steps: seq<Step>, i: nat, m: nat, j: nat, k: Key) {
    && i <= m < j <= |steps| < |ss| && GivesBack(ss[m], steps[m], k)
    && forall n :: m < n < j ==> !Claims(steps[n], k)
  }

  /** A claim that stands is gone later exactly when it was given back and not taken since. */
  lemma {:induction false} GoneExactlyWhenGivenBack(ss: seq<System>, steps: seq<Step>, i: nat, j: nat, k: Key)
    requires Execution(ss, steps) && i <= j < |ss| && k in ss[i].g.claims
    ensures k !in ss[j].g.claims <==> exists m: nat :: LastGivenBack(ss, steps, i, m, j, k)
    decreases j
  {
    hide Next, P.Initial;
    if i < j {
      GoneExactlyWhenGivenBack(ss, steps, i, j - 1, k);
      assert Next(ss[j - 1], steps[j - 1], ss[j - 1 + 1]);
      ClaimsChange(ss[j - 1], steps[j - 1], ss[j], k);
      if k !in ss[j].g.claims {
        if GivesBack(ss[j - 1], steps[j - 1], k) {
          assert LastGivenBack(ss, steps, i, j - 1, j, k);
        } else {
          var m: nat :| LastGivenBack(ss, steps, i, m, j - 1, k);
          assert LastGivenBack(ss, steps, i, m, j, k);
        }
      } else {
        assert forall m: nat :: LastGivenBack(ss, steps, i, m, j, k) && m < j - 1 ==>
          LastGivenBack(ss, steps, i, m, j - 1, k);
      }
    }
  }

  /** At a normal return a counterparty is unclaimed exactly when this call skipped it and
      another one gave the claim back since, nobody taking it anew. */
  lemma UnclaimedExactlyWhenGivenBack(ss: seq<System>, steps: seq<Step>, j: nat, w: Worker, p: nat) returns (i: nat)
    requires Execution(ss, steps) && j < |steps| && steps[j] == Return(w)
    requires w in ss[j].calls && |ss[j].calls[w].marks| <= |ss[j].calls[w].cps|
    requires VerdictOf(ss[j].calls[w]) == Returned && p < |ss[j].calls[w].cps|
    ensures |ss[j].calls[w].marks| == |ss[j].calls[w].cps| && Ends(ss, i, j, w, p)
    ensures var c := ss[j].calls[w]; var k := EntryKey(c, p);
      k !in ss[j].g.claims <==>
        c.marks[p] == Skipped
        && exists m: nat :: LastGivenBack(ss, steps, i, m, j, k) && steps[m] != Act(P.GiveBack(w))
  {
    hide P.Inv, P.Initial, P.Effect, P.Enabled, P.Next, Next, CallsOk;
    i := NormalReturn(ss, steps, j, w, p);
    var c := ss[j].calls[w];
    var k := EntryKey(c, p);
    if c.marks[p] == Kept {
      assert P.Settled(ss[j].g, k);
    } else {
      GoneExactlyWhenGivenBack(ss, steps, i, j, k);
      forall m: nat | LastGivenBack(ss, steps, i, m, j, k) ensures steps[m] != Act(P.GiveBack(w)) {
        GiverIsAnother(ss, steps, i, m, j, w, p, k);
      }
    }
  }

  lemma GiverIsAnother(ss: seq<System>, steps: seq<Step>, i: nat, m: nat, j: nat, w: Worker, p: nat, k: Key)
    requires Execution(ss, steps) && Ends(ss, i, j, w, p) && LastGivenBack(ss, steps, i, m, j, k) && j < |ss|
    requires |ss[j].calls[w].marks| <= |ss[j].calls[w].cps| && VerdictOf(ss[j].calls[w]) == Returned
    ensures steps[m] != Act(P.GiveBack(w))
  {
    hide P.Inv, P.Initial, P.Effect, P.Enabled, P.Next, P.Settled, Next;
    if steps[m] == Act(P.GiveBack(w)) {
      ExecutionKeepsCallsOk(ss, steps, j);
      assert CallOk(ss[j], ss[j].calls[w]);
      NormalMarks(ss[j].calls[w]);
      GivenBackShows(ss, steps, m, j, w);
    }
  }

  /** A worker's call goes on until it returns or crashes. */
  lemma {:induction false} GoesOn(ss: seq<System>, steps: seq<Step>, i: nat, j: nat, w: Worker)
    requires Execution(ss, steps) && i <= j < |ss| && w in ss[i].calls && w in ss[i].g.phase
    requires forall n :: i <= n < j ==> steps[n] != Return(w)
    ensures w in ss[j].g.phase && (SameCall(ss, i, j, w) || ss[j].g.phase[w] == P.Crashed)
    decreases j
  {
    hide Next, CallsOk, P.Inv, P.Initial;
    if i < j {
      GoesOn(ss, steps, i, j - 1, w);
      ExecutionKeepsCallsOk(ss, steps, j - 1);
      assert Next(ss[j - 1], steps[j - 1], ss[j - 1 + 1]);
      CallStays(ss[j - 1], steps[j - 1], ss[j], w);
      if SameCall(ss, i, j - 1, w) && w in ss[j].calls {
        PassMeaning(ss[j - 1], steps[j - 1], ss[j], w);
        Longer(ss, i, j, w);
      }
    }
  }

  lemma CallStays(s: System, step: Step, s': System, w: Worker)
    requires Next(s, step, s') && w in s.g.phase && step != Return(w)
    ensures w in s'.g.phase && (s.g.phase[w] == P.Crashed ==> s'.g.phase[w] == P.Crashed)
    ensures w in s.calls ==> w in s'.calls || s'.g.phase[w] == P.Crashed
  {
    hide P.Settled, P.Effect, P.Enabled, P.Next, WorkerOk, CallOk;
    if step.Act? {
      if MovesWorker(step.a) && step.a.w == w {
        OwnPhase(s.g, step.a);
      } else {
        OthersStay(s.g, step.a, w);
      }
    }
  }

  /** A worker that died stays dead, and a worker's own crash is its death. */
  lemma OwnPhase(g: P.Global, a: P.Action)
    requires P.Enabled(g, a) && MovesWorker(a) && a.w in g.phase
    ensures a.w in P.Effect(g, a).phase
    ensures g.phase[a.w] == P.Crashed || a.Crash? ==> P.Effect(g, a).phase[a.w] == P.Crashed
  {
    hide RunOk, Open, SignFirst, SignSecond, SlaResume, Applied, Finds;
  }

  /** Whoever gives a claim back does not return normally: its own message is redelivered,
      so a counterparty left unclaimed is still due. */
  lemma GiverDoesNotReturnNormally(ss: seq<System>, steps: seq<Step>, i: nat, j: nat, u: Worker)
    requires Execution(ss, steps) && i < j < |steps| && steps[i] == Act(P.GiveBack(u)) && steps[j] == Return(u)
    requires forall n :: i <= n < j ==> steps[n] != Return(u)
    ensures u in ss[j].calls && |ss[j].calls[u].marks| <= |ss[j].calls[u].cps| && VerdictOf(ss[j].calls[u]) != Returned
  {
    hide P.Inv, P.Initial, P.Effect, P.Next, P.Settled;
    ExecutionKeepsCallsOk(ss, steps, i);
    ExecutionKeepsCallsOk(ss, steps, j);
    assert Next(ss[i], steps[i], ss[i + 1]) && Next(ss[j], steps[j], ss[j + 1]);
    assert WorkerOk(ss[i], u);
    GoesOn(ss, steps, i, j, u);
    GivenBackShows(ss, steps, i, j, u);
    assert CallOk(ss[j], ss[j].calls[u]);
    if VerdictOf(ss[j].calls[u]) == Returned {
      NormalMarks(ss[j].calls[u]);
    }
  }

  /** A claim this call gave back, on this counterparty. */
  ghost predicate GaveBack(ss: seq<System>, steps: seq<Step>, i: nat, j: nat, w: Worker, cp: string) {
    && i < j < |ss| && |ss| == |steps| + 1 && SameCall(ss, i, j, w) && steps[i] == Act(P.GiveBack(w))
    && GivesBack(ss[i], steps[i], Key(ss[j].calls[w].trigger.eventId, cp))
  }

  /** A busy error names exactly the counterparties whose claims this call itself gave back;
      every other claim it took is kept for good. */
  lemma BusyErrorNamesWhatItGaveBack(ss: seq<System>, steps: seq<Step>, j: nat, w: Worker, cp: string)
    requires Execution(ss, steps) && j < |steps| && steps[j] == Return(w)
    requires w in ss[j].calls && |ss[j].calls[w].marks| <= |ss[j].calls[w].cps| && VerdictOf(ss[j].calls[w]).BusyError?
    ensures cp in VerdictOf(ss[j].calls[w]).cps <==> exists i: nat :: GaveBack(ss, steps, i, j, w, cp)
    ensures forall p :: 0 <= p < |ss[j].calls[w].marks| && ss[j].calls[w].marks[p] == Kept ==>
      P.Settled(ss[j].g, EntryKey(ss[j].calls[w], p))
  {
    hide P.Inv, P.Initial, P.Effect, P.Enabled, P.Next, P.Settled, Next;
    ExecutionKeepsCallsOk(ss, steps, j);
    var c := ss[j].calls[w];
    assert CallOk(ss[j], c);
    BusyOnesAre(c.cps, c.marks, cp);
    if cp in BusyOnes(c.cps, c.marks) {
      var p :| 0 <= p < |c.marks| && c.marks[p] == Busy && c.cps[p] == cp;
      var i := PassEnded(ss, steps, j, w, p);
      assert GaveBack(ss, steps, i, j, w, cp);
    }
    forall i: nat | GaveBack(ss, steps, i, j, w, cp) ensures cp in BusyOnes(c.cps, c.marks) {
      GivenBackShows(ss, steps, i, j, w);
      var p := |ss[i].calls[w].marks|;
      assert c.marks[p] == Busy && c.cps[p] == cp;
    }
  }

  /** An error that propagates: the claim the call stopped at, if it took one, stands exactly
      when building the graph failed - which happens only while every entry before was skipped,
      so before the call's first dispatch - or giving the claim back failed; otherwise it was
      given back. Every claim left standing stands for good. */
  lemma PropagatedClaimStandsExactlyWhen(ss: seq<System>, steps: seq<Step>, j: nat, w: Worker) returns (i: nat)
    requires Execution(ss, steps) && j < |steps| && steps[j] == Return(w)
    requires w in ss[j].calls && |ss[j].calls[w].marks| <= |ss[j].calls[w].cps|
    requires VerdictOf(ss[j].calls[w]) == Propagated
    ensures var c := ss[j].calls[w]; var n := |c.marks| - 1;
      && n >= 0 && Ends(ss, i, j, w, n) && i < |steps|
      && (forall p :: 0 <= p < n ==> !Breaks(c.marks[p]))
      && (forall p :: 0 <= p <= n && Stands(c.marks[p]) ==> P.Settled(ss[j].g, EntryKey(c, p)))
    ensures var c := ss[j].calls[w]; var n := |c.marks| - 1; var k := EntryKey(c, n);
      && (steps[i] != ClaimFails(w) ==>
            && k in ss[i].g.claims
            && (k in ss[i + 1].g.claims <==> steps[i] == Act(P.BuildFails(w)) || steps[i] == Act(P.GiveBackFails(w)))
            && (k in ss[i + 1].g.claims ==> P.Settled(ss[j].g, k))
            && (k !in ss[i + 1].g.claims <==> GivesBack(ss[i], steps[i], k)))
      && (steps[i] == Act(P.BuildFails(w)) ==> AllSkipped(c.marks[..n]))
  {
    hide P.Inv, P.Initial, P.Effect, P.Enabled, P.Next, P.Settled, Next, AllSkipped;
    ExecutionKeepsCallsOk(ss, steps, j);
    var c := ss[j].calls[w];
    var n := |c.marks| - 1;
    assert CallOk(ss[j], c);
    i := PassEnded(ss, steps, j, w, n);
    assert Next(ss[i], steps[i], ss[i + 1]);
    ClaimsChange(ss[i], steps[i], ss[i + 1], EntryKey(c, n));
    ExecutionKeepsCallsOk(ss, steps, i);
    WorkedOnIsClaimed(ss[i].g, w);
  }

  lemma WorkedOnIsClaimed(g: P.Global, w: Worker)
    requires P.Inv(g)
    ensures w in g.phase && P.Active(g.phase[w]) ==> g.phase[w].key in g.claims
  {
    hide RunOk, Open;
  }

  // ----- a normal return that leaves a counterparty unclaimed ----------------------------------------

  /** Two idle workers, and a counterparty whose lease a crashed worker left behind just now. */
  function TwoDeliveries(a: Worker, b: Worker, cp: string): System {
    System(P.Global(0, {}, map[cp := 0], map[], map[a := P.Idle, b := P.Idle]), map[])
  }

  /** `s` with worker `b`'s phase, the claims and the calls replaced. */
  function Moved(s: System, b: Worker, p: P.Phase, claims: set<Key>, calls: map<Worker, Call>): System {
    System(s.g.(phase := s.g.phase[b := p], claims := claims), calls)
  }

  /** Two deliveries of one message. One claims the counterparty, the other finds it claimed
      and skips it; the first finds the lease held and gives its claim back; and the other
      returns normally with the counterparty unclaimed. */
  lemma NormalReturnLeavesUnclaimed(a: Worker, b: Worker, cp: string, t: Trigger)
    returns (ss: seq<System>, steps: seq<Step>)
    requires a != b
    ensures Execution(ss, steps) && |steps| == 8 && steps[7] == Return(a)
    ensures a in ss[7].calls && ss[7].calls[a] == Call(t, [cp], [Skipped]) && VerdictOf(ss[7].calls[a]) == Returned
    ensures EntryKey(ss[7].calls[a], 0) !in ss[7].g.claims && EntryKey(ss[7].calls[a], 0) !in ss[8].g.claims
  {
    hide Next, P.Initial, Moved, TwoDeliveries;
    var k := Key(t.eventId, cp);
    var s0, s1, s2, s3, s4 := FirstHalf(a, b, cp, t);
    var s4', s5, s6, s7, s8 := SecondHalf(a, b, cp, t);
    assert s4' == s4;
    ss := [s0, s1, s2, s3, s4, s5, s6, s7, s8];
    steps := [Begin(a, t, [cp]), Begin(b, t, [cp]), Act(P.Claim(b, k, t)), Skip(a), Act(P.InsertLease(b)),
              Act(P.ReadLease(b)), Act(P.GiveBack(b)), Return(a)];
    assert Next(ss[0], steps[0], ss[1]) && Next(ss[1], steps[1], ss[2]) && Next(ss[2], steps[2], ss[3]);
    assert Next(ss[3], steps[3], ss[4]) && Next(ss[4], steps[4], ss[5]) && Next(ss[5], steps[5], ss[6]);
    assert Next(ss[6], steps[6], ss[7]) && Next(ss[7], steps[7], ss[8]);
    OnlySkipped(cp, t);
  }

  lemma OnlySkipped(cp: string, t: Trigger)
    ensures VerdictOf(Call(t, [cp], [Skipped])) == Returned
  {
    assert [Skipped][..0] == [] && BusyOnes([cp], [Skipped]) == BusyOnes([cp], []) + [];
  }

  lemma FirstHalf(a: Worker, b: Worker, cp: string, t: Trigger)
    returns (s0: System, s1: System, s2: System, s3: System, s4: System)
    requires a != b
    ensures P.Initial(s0.g) && s0.calls == map[]
    ensures Next(s0, Begin(a, t, [cp]), s1) && Next(s1, Begin(b, t, [cp]), s2)
    ensures Next(s2, Act(P.Claim(b, Key(t.eventId, cp), t)), s3) && Next(s3, Skip(a), s4)
    ensures var k := Key(t.eventId, cp);
      s4 == Moved(TwoDeliveries(a, b, cp), b, P.Claimed(k, t), {k},
                  map[a := Call(t, [cp], [Skipped]), b := Call(t, [cp], [])])
  {
    hide Next, P.Initial;
    var k, begun := Key(t.eventId, cp), Call(t, [cp], []);
    s0 := TwoDeliveries(a, b, cp);
    s1 := s0.(calls := map[a := begun]);
    s2 := s0.(calls := map[a := begun, b := begun]);
    s3 := Moved(s0, b, P.Claimed(k, t), {k}, s2.calls);
    s4 := s3.(calls := map[a := Call(t, [cp], [Skipped]), b := begun]);
    StartsInitial(a, b, cp);
    DeliveriesBegin(a, b, cp, t);
    OneClaimsOneSkips(a, b, cp, t);
    assert s3 == Moved(s2, b, P.Claimed(k, t), {k}, s2.calls);
  }

  lemma SecondHalf(a: Worker, b: Worker, cp: string, t: Trigger)
    returns (s4: System, s5: System, s6: System, s7: System, s8: System)
    requires a != b
    ensures var k := Key(t.eventId, cp);
      s4 == Moved(TwoDeliveries(a, b, cp), b, P.Claimed(k, t), {k},
                  map[a := Call(t, [cp], [Skipped]), b := Call(t, [cp], [])])
    ensures Next(s4, Act(P.InsertLease(b)), s5) && Next(s5, Act(P.ReadLease(b)), s6) && Next(s6, Act(P.GiveBack(b)), s7)
    ensures Next(s7, Return(a), s8) && a in s7.calls && s7.calls[a] == Call(t, [cp], [Skipped])
    ensures s7.g.claims == {} && s8.g.claims == {}
  {
    hide Next;
    var k, skipped, begun := Key(t.eventId, cp), Call(t, [cp], [Skipped]), Call(t, [cp], []);
    s4 := Moved(TwoDeliveries(a, b, cp), b, P.Claimed(k, t), {k}, map[a := skipped, b := begun]);
    s5 := Moved(s4, b, P.LeaseTaken(k, t, s4.g.now), {k}, s4.calls);
    s6 := Moved(s4, b, P.GivingBack(k, true), {k}, s4.calls);
    s7 := Moved(s4, b, P.Idle, {}, Marked(s4.calls, b, Busy));
    s8 := s7.(calls := s7.calls - {a});
    LeaseIsHeld(b, k, t, s4);
    OtherReturns(a, s7, s8);
  }

  lemma StartsInitial(a: Worker, b: Worker, cp: string)
    ensures P.Initial(TwoDeliveries(a, b, cp).g)
  {
    hide RunOk;
  }

  lemma DeliveriesBegin(a: Worker, b: Worker, cp: string, t: Trigger)
    requires a != b
    ensures var s0, begun := TwoDeliveries(a, b, cp), Call(t, [cp], []);
      var s1, s2 := s0.(calls := map[a := begun]), s0.(calls := map[a := begun, b := begun]);
      Next(s0, Begin(a, t, [cp]), s1) && Next(s1, Begin(b, t, [cp]), s2)
  {
  }

  lemma OneClaimsOneSkips(a: Worker, b: Worker, cp: string, t: Trigger)
    requires a != b
    ensures var k, begun := Key(t.eventId, cp), Call(t, [cp], []);
      var s2 := TwoDeliveries(a, b, cp).(calls := map[a := begun, b := begun]);
      var s3 := Moved(s2, b, P.Claimed(k, t), {k}, s2.calls);
      var s4 := s3.(calls := map[a := Call(t, [cp], [Skipped]), b := begun]);
      Next(s2, Act(P.Claim(b, k, t)), s3) && Next(s3, Skip(a), s4)
  {
    var k, begun := Key(t.eventId, cp), Call(t, [cp], []);
    var s2 := TwoDeliveries(a, b, cp).(calls := map[a := begun, b := begun]);
    var s3 := Moved(s2, b, P.Claimed(k, t), {k}, s2.calls);
    assert P.Effect(s2.g, P.Claim(b, k, t)) == s3.g by {
      assert {} + {k} == {k};
    }
    assert [] + [Skipped] == [Skipped];
    assert Marked(s3.calls, a, Skipped) == map[a := Call(t, [cp], [Skipped]), b := begun];
  }

  lemma LeaseIsHeld(b: Worker, k: Key, t: Trigger, s4: System)
    requires P.At(s4.g, b, P.Claimed(k, t)) && b in s4.calls && s4.g.claims == {k}
    requires k.cp in s4.g.leases && s4.g.leases[k.cp] == s4.g.now
    ensures var s5 := Moved(s4, b, P.LeaseTaken(k, t, s4.g.now), {k}, s4.calls);
      var s6 := Moved(s4, b, P.GivingBack(k, true), {k}, s4.calls);
      var s7 := Moved(s4, b, P.Idle, {}, Marked(s4.calls, b, Busy));
      && Next(s4, Act(P.InsertLease(b)), s5) && Next(s5, Act(P.ReadLease(b)), s6)
      && Next(s6, Act(P.GiveBack(b)), s7)
  {
    var s5 := Moved(s4, b, P.LeaseTaken(k, t, s4.g.now), {k}, s4.calls);
    var s6 := Moved(s4, b, P.GivingBack(k, true), {k}, s4.calls);
    var s7 := Moved(s4, b, P.Idle, {}, Marked(s4.calls, b, Busy));
    assert P.Effect(s4.g, P.InsertLease(b)) == s5.g;
    assert P.Effect(s5.g, P.ReadLease(b)) == s6.g;
    assert P.Effect(s6.g, P.GiveBack(b)) == s7.g;
  }

  lemma OtherReturns(a: Worker, s7: System, s8: System)
    requires P.At(s7.g, a, P.Idle) && a in s7.calls && s8 == s7.(calls := s7.calls - {a})
    requires |s7.calls[a].marks| == |s7.calls[a].cps|
    ensures Next(s7, Return(a), s8)
  {
  }

  // ----- a trigger lost to a failed graph build -------------------------------------------------------

  /** One idle worker, nothing claimed, nothing open. */
  function OneWorker(a: Worker): System {
    System(P.Global(0, {}, map[], map[], map[a := P.Idle]), map[])
  }

  /** One delivery claims its counterparty, fails to build the graph, and propagates the error
      with the claim standing. The redelivery skips the counterparty and returns normally:
      it is claimed, and nothing was ever dispatched. */
  lemma FailedBuildLosesTrigger(a: Worker, cp: string, t: Trigger) returns (ss: seq<System>, steps: seq<Step>)
    ensures Execution(ss, steps) && |steps| == 7
    ensures steps[2] == Act(P.BuildFails(a)) && steps[3] == Return(a) && steps[6] == Return(a)
    ensures a in ss[3].calls && ss[3].calls[a] == Call(t, [cp], [Unbuilt]) && VerdictOf(ss[3].calls[a]) == Propagated
    ensures a in ss[6].calls && ss[6].calls[a] == Call(t, [cp], [Skipped]) && VerdictOf(ss[6].calls[a]) == Returned
    ensures Key(t.eventId, cp) in ss[7].g.claims && ss[7].g.runs == map[]
  {
    hide Next, P.Initial;
    var k, begun := Key(t.eventId, cp), Call(t, [cp], []);
    var s0 := OneWorker(a);
    var s1 := s0.(calls := map[a := begun]);
    var s2 := Moved(s1, a, P.Claimed(k, t), {k}, s1.calls);
    var s3 := Moved(s1, a, P.Idle, {k}, map[a := Call(t, [cp], [Unbuilt])]);
    var s4 := s3.(calls := map[]);
    var s5 := s3.(calls := map[a := begun]);
    var s6 := s3.(calls := map[a := Call(t, [cp], [Skipped])]);
    ss := [s0, s1, s2, s3, s4, s5, s6, s4];
    steps := [Begin(a, t, [cp]), Act(P.Claim(a, k, t)), Act(P.BuildFails(a)), Return(a),
              Begin(a, t, [cp]), Skip(a), Return(a)];
    FirstClaims(a, cp, t);
    BuildFailsOnce(a, cp, t, s2);
    assert s3 == Moved(s2, a, P.Idle, s2.g.claims, map[a := Call(t, [cp], [Unbuilt])]);
    SkippedNextTime(a, cp, t, s4);
    NoneYet(a);
    OnlySkipped(cp, t);
    assert Next(ss[0], steps[0], ss[1]) && Next(ss[1], steps[1], ss[2]) && Next(ss[2], steps[2], ss[3]);
    assert Next(ss[3], steps[3], ss[4]) && Next(ss[4], steps[4], ss[5]) && Next(ss[5], steps[5], ss[6]);
    assert Next(ss[6], steps[6], ss[7]);
  }

  lemma NoneYet(a: Worker)
    ensures P.Initial(OneWorker(a).g)
  {
    hide RunOk;
  }

  lemma FirstClaims(a: Worker, cp: string, t: Trigger)
    ensures var s0, k := OneWorker(a), Key(t.eventId, cp);
      var s1 := s0.(calls := map[a := Call(t, [cp], [])]);
      && Next(s0, Begin(a, t, [cp]), s1)
      && Next(s1, Act(P.Claim(a, k, t)), Moved(s1, a, P.Claimed(k, t), {k}, s1.calls))
  {
    hide P.Initial;
    var s0, k := OneWorker(a), Key(t.eventId, cp);
    var s1 := s0.(calls := map[a := Call(t, [cp], [])]);
    assert P.Effect(s1.g, P.Claim(a, k, t)) == Moved(s1, a, P.Claimed(k, t), {k}, s1.calls).g by {
      assert {} + {k} == {k};
    }
  }

  lemma BuildFailsOnce(a: Worker, cp: string, t: Trigger, s: System)
    requires P.At(s.g, a, P.Claimed(Key(t.eventId, cp), t)) && s.calls == map[a := Call(t, [cp], [])]
    ensures var s' := Moved(s, a, P.Idle, s.g.claims, map[a := Call(t, [cp], [Unbuilt])]);
      Next(s, Act(P.BuildFails(a)), s') && Next(s', Return(a), s'.(calls := map[]))
  {
    var s' := Moved(s, a, P.Idle, s.g.claims, map[a := Call(t, [cp], [Unbuilt])]);
    assert P.Effect(s.g, P.BuildFails(a)) == s'.g;
    assert [] + [Unbuilt] == [Unbuilt];
    assert Marked(s.calls, a, Unbuilt) == s'.calls;
    assert Stopped(s'.calls[a]);
  }

  lemma SkippedNextTime(a: Worker, cp: string, t: Trigger, s: System)
    requires P.At(s.g, a, P.Idle) && s.calls == map[] && Key(t.eventId, cp) in s.g.claims
    ensures Next(s, Begin(a, t, [cp]), s.(calls := map[a := Call(t, [cp], [])]))
    ensures Next(s.(calls := map[a := Call(t, [cp], [])]), Skip(a), s.(calls := map[a := Call(t, [cp], [Skipped])]))
    ensures Next(s.(calls := map[a := Call(t, [cp], [Skipped])]), Return(a), s)
  {
    assert [] + [Skipped] == [Skipped];
  }

  /** In any execution: once building the graph failed on a claimed counterparty, no step
      ever claims or dispatches that event and counterparty again. */
  lemma FailedBuildIsFinal(ss: seq<System>, steps: seq<Step>, i: nat, j: nat, w: Worker)
    requires Execution(ss, steps) && i < j < |steps| && steps[i] == Act(P.BuildFails(w)) && w in ss[i].g.phase
    requires ss[i].g.phase[w].Claimed?
    ensures var k := ss[i].g.phase[w].key;
      P.Settled(ss[j].g, k) && !Claims(steps[j], k) && (steps[j].Act? ==> !P.DispatchesFor(ss[j].g, steps[j].a, k))
  {
    hide P.Execution, P.Settled, P.Next, P.Initial, Next;
    IsProtocolExecution(ss, steps);
    var gs := seq(|ss|, n requires 0 <= n < |ss| => ss[n].g);
    var actions := seq(|steps|, n requires 0 <= n < |steps| => ProtocolStep(ss[n], steps[n]));
    P.DispatchedAtMostOnce(gs, actions, i, j, ss[i].g.phase[w].key);
  }
}
