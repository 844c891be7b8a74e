/** What the client's channel does to a run (src/api/whatsapp_webhook.py): delivery
    statuses and acknowledgements, each handled once. */
module Webhook {
  import opened Wrappers
  import opened MarginRun
  import opened MarginPolicy
  import opened Store
  import opened Endpoints

  // ----- what arrives ---------------------------------------------------------------------

  /** A tap's own payload may name the call. */
  datatype Press = Press(payload: Option<Key>)

  datatype Item =
    | StatusItem(id: string, status: string, callback: Option<Key>, reason: Reason)
    | MessageItem(id: string, sender: string, press: Option<Press>, quoted: Option<string>)

  datatype Outcome =
    | Duplicate | StatusUnmatched | StatusNoted | FailedForOlderNotice | FailedAfterResolution | FailedEscalated
    | AckIgnored(why: AckReason) | Acknowledged | Replied
    | Error

  datatype AckReason = ContactChanged | NotTheContact | OlderNotice | NotWaiting

  datatype Contact = Contact(phone: string, active: bool, version: string)

  /** What handling an item reads beside the tables: the newest notices on record (newest
      first), the contacts, the default number, the clock, and whether a write beside the run
      (an audit row, the reply) fails. */
  datatype Context = Context(
    notices: seq<(string, Key)>, contacts: map<int, Contact>, fallback: string,
    world: World, writeFails: bool)

  function RowOf(item: Item): RowId {
    match item
    case StatusItem(id, status, _, _) => WaStatus(id, status)
    case MessageItem(id, _, _, _) => WaMessage(id)
  }

  // ----- which call it is about --------------------------------------------------------------

  function ThreadForMessage(notices: seq<(string, Key)>, id: string): Option<Key> {
    if notices == [] then None
    else if notices[0].0 == id then Some(notices[0].1)
    else ThreadForMessage(notices[1..], id)
  }

  function Target(item: Item, notices: seq<(string, Key)>): Option<Key> {
    match item
    case StatusItem(id, _, callback, _) => if callback.Some? then callback else ThreadForMessage(notices, id)
    case MessageItem(_, _, press, quoted) =>
      if press.None? then None
      else if press.value.payload.Some? then press.value.payload
      else if quoted.Some? && quoted.value != "" then ThreadForMessage(notices, quoted.value)
      else None
  }

  function Digits(number: string): string {
    if number == "" then ""
    else if '0' <= number[0] <= '9' then [number[0]] + Digits(number[1..])
    else Digits(number[1..])
  }

  /** The number a call's notice was sent to, None once its contact changed. */
  function NoticeRecipient(v: Values, c: Context): Option<string> {
    match v.routing
    case None => Some(Digits(c.fallback))
    case Some(ToDefault) => Some(Digits(c.fallback))
    case Some(ToContact(id, version)) =>
      if id in c.contacts && c.contacts[id].active && c.contacts[id].version == version && c.contacts[id].phone != ""
      then Some(Digits(c.contacts[id].phone)) else None
  }

  // ----- one item --------------------------------------------------------------------------------

  function AckObjection(runs: map<Key, Run>, k: Key, sender: string, quoted: Option<string>, c: Context)
    : Option<AckReason>
    requires k in runs
  {
    var v := runs[k].values;
    var recipient := NoticeRecipient(v, c);
    if recipient.None? then Some(ContactChanged)
    else if recipient.value == "" || Digits(sender) != recipient.value then Some(NotTheContact)
    else if quoted.Some? && quoted.value != "" && v.sentAt.Some? && quoted != v.messageId then Some(OlderNotice)
    else if Pending(runs, k) != Some(AwaitSlaResponse) then Some(NotWaiting)
    else None
  }

  /** What an item amounts to, before anything is written. */
  function Judgement(runs: map<Key, Run>, item: Item, c: Context): Outcome {
    var target := Target(item, c.notices);
    match item
    case StatusItem(id, status, _, _) =>
      if target.None? || target.value !in runs then StatusUnmatched
      else if status != "failed" then StatusNoted
      else if runs[target.value].values.messageId != Some(id) then FailedForOlderNotice
      else if Pending(runs, target.value) != Some(AwaitSlaResponse) then FailedAfterResolution
      else FailedEscalated
    case MessageItem(_, sender, _, quoted) =>
      if target.None? || target.value !in runs then Replied
      else
        var objection := AckObjection(runs, target.value, sender, quoted, c);
        if objection.Some? then AckIgnored(objection.value) else Acknowledged
  }

  /** The signal an item sends to the run it is about. */
  function SignalOf(item: Item): SlaSignal {
    if item.StatusItem? then DeliveryFailed(item.reason) else Responded
  }

  predicate Resumes(outcome: Outcome) {
    outcome == FailedEscalated || outcome == Acknowledged
  }

  function AfterSignal(runs: map<Key, Run>, k: Key, signal: SlaSignal, w: World): map<Key, Run> {
    if k in runs && runs[k].place.Paused? && runs[k].values.breach.Some? && runs[k].values.sentAt.Some?
    then runs[k := SlaResume(runs[k], signal, w)] else runs
  }

  /** The tables and the outcome after handling a claimed item. A status is audited before
      the run is resumed, an acknowledgement after. */
  function Handled(s: Tables, item: Item, c: Context): (Tables, Outcome) {
    var judged, target := Judgement(s.runs, item, c), Target(item, c.notices);
    if c.writeFails && (item.StatusItem? && judged != StatusUnmatched) then (s, Error)
    else if target.Some? && Resumes(judged) then
      var runs' := AfterSignal(s.runs, target.value, SignalOf(item), c.world);
      var failed := target.value in runs' && runs'[target.value].place.Raised?;
      (s.(runs := runs'), if failed || (item.MessageItem? && c.writeFails) then Error else judged)
    else (s, if c.writeFails && item.MessageItem? then Error else judged)
  }

  /** Exactly once per row, and released when handling it failed. */
  function Once(s: Tables, item: Item, c: Context): (Tables, Outcome) {
    var row := RowOf(item);
    if row in s.rows then (s, Duplicate)
    else
      var (s', outcome) := Handled(s.(rows := s.rows[row := c.world.now]), item, c);
      if outcome == Error then (s'.(rows := s'.rows - {row}), Error) else (s', outcome)
  }

  method ProcessItem(db: Database, item: Item, c: Context) returns (outcome: Outcome)
    requires TablesOk(db.Now())
    modifies db
    ensures TablesOk(db.Now())
    ensures (db.Now(), outcome) == Once(old(db.Now()), item, c)
  {
    hide RunOk, TablesOk, Open, SlaResume, Judgement;
    var row := RowOf(item);
    var claimed := db.Insert(row, c.world.now);
    if !claimed {
      return Duplicate;
    }
    OtherRowKeepsOk(old(db.Now()), db.Now());
    outcome := HandleItem(db, item, c);
    if outcome == Error {
      ghost var before := db.Now();
      db.Delete(row);
      OtherRowKeepsOk(before, db.Now());
    }
  }

  method HandleItem(db: Database, item: Item, c: Context) returns (outcome: Outcome)
    requires TablesOk(db.Now())
    modifies db`runs
    ensures TablesOk(db.Now())
    ensures (db.Now(), outcome) == Handled(old(db.Now()), item, c)
  {
    hide RunOk, TablesOk, Open, SlaResume;
    var judged, target := Judgement(db.runs, item, c), Target(item, c.notices);
    if c.writeFails && item.StatusItem? && judged != StatusUnmatched {
      return Error;
    }
    if Resumes(judged) {
      var k := target.value;
      PendingHolds(db.Now(), k);
      ResumeSla(db, k, SignalOf(item), c.world);
      if db.runs[k].place.Raised? {
        return Error;
      }
    }
    outcome := if c.writeFails && item.MessageItem? then Error else judged;
  }

  /** Webhook rows are no claims of runs. */
  lemma OtherRowKeepsOk(s: Tables, s': Tables)
    requires TablesOk(s) && s'.runs == s.runs && forall k :: RunClaim(k) in s'.rows <==> RunClaim(k) in s.rows
    ensures TablesOk(s')
  {
    hide RunOk, Open, Unsigned;
  }

  // ----- a whole payload -------------------------------------------------------------------------

  /** The items in order, up to the first error. */
  function Process(s: Tables, items: seq<Item>, cs: seq<Context>): (Tables, seq<Outcome>)
    requires |items| == |cs|
    decreases |items|
  {
    if items == [] then (s, [])
    else
      var (s1, outcome) := Once(s, items[0], cs[0]);
      if outcome == Error then (s1, [Error])
      else
        var (s', rest) := Process(s1, items[1..], cs[1..]);
        (s', [outcome] + rest)
  }

  predicate NoError(outcomes: seq<Outcome>) {
    forall i :: 0 <= i < |outcomes| ==> outcomes[i] != Error
  }

  lemma NoErrorTail(s: Tables, items: seq<Item>, cs: seq<Context>)
    requires |items| == |cs| && items != [] && NoError(Process(s, items, cs).1)
    ensures var (s1, outcome) := Once(s, items[0], cs[0]);
      && outcome != Error && NoError(Process(s1, items[1..], cs[1..]).1)
      && Process(s, items, cs).0 == Process(s1, items[1..], cs[1..]).0
  {
    hide Once;
    var outcomes := Process(s, items, cs).1;
    assert outcomes[0] != Error;
    var rest := Process(Once(s, items[0], cs[0]).0, items[1..], cs[1..]).1;
    assert outcomes == [Once(s, items[0], cs[0]).1] + rest;
    assert forall i :: 0 <= i < |rest| ==> rest[i] == outcomes[i + 1];
  }

  method ProcessWebhook(db: Database, items: seq<Item>, cs: seq<Context>) returns (outcomes: seq<Outcome>)
    requires |items| == |cs| && TablesOk(db.Now())
    modifies db
    ensures TablesOk(db.Now())
    ensures (db.Now(), outcomes) == Process(old(db.Now()), items, cs)
  {
    hide TablesOk, Once;
    outcomes := [];
    ghost var all := Process(db.Now(), items, cs);
    assert items[0..] == items && cs[0..] == cs;
    var i := 0;
    while i < |items|
      invariant 0 <= i <= |items| && TablesOk(db.Now())
      invariant all.0 == Process(db.Now(), items[i..], cs[i..]).0
      invariant all.1 == outcomes + Process(db.Now(), items[i..], cs[i..]).1
    {
      assert items[i..][0] == items[i] && items[i..][1..] == items[i + 1..] && cs[i..][1..] == cs[i + 1..];
      ghost var before := db.Now();
      var outcome := ProcessItem(db, items[i], cs[i]);
      outcomes := outcomes + [outcome];
      if outcome == Error {
        assert all.1 == outcomes;
        return;
      }
      i := i + 1;
    }
    assert items[i..] == [] && Process(db.Now(), items[i..], cs[i..]) == (db.Now(), []);
    assert outcomes + [] == outcomes;
  }

  // ----- what it means -----------------------------------------------------------------------------

  /** Each item takes effect once: after a normal outcome its row stands and the same item
      again, in whatever circumstances, is a duplicate without effect; after an error its
      row is gone, so it is taken again. */
  lemma ItemTakesEffectOnce(s: Tables, item: Item, c: Context, again: Context)
    ensures var (s', outcome) := Once(s, item, c);
      && (outcome != Error ==> RowOf(item) in s'.rows && Once(s', item, again) == (s', Duplicate))
      && (outcome == Error ==> RowOf(item) !in s'.rows)
      && (forall r | r != RowOf(item) :: (r in s'.rows <==> r in s.rows) && (r in s.rows ==> s'.rows[r] == s.rows[r]))
  {
    hide SlaResume, Judgement;
  }

  /** A reply and a delivery failure always resolve the gate: the run is never paused there again. */
  lemma ClientSignalResolves(r: Run, signal: SlaSignal, w: World)
    requires RunOk(r) && r.place.Paused? && r.place.node == AwaitSlaResponse && signal != Check
    ensures !SlaResume(r, signal, w).place.Paused? && SlaResume(r, signal, w).values.sla.Some?
  {
    ReplayMeaning(r.place.signals, signal, w.now, Deadline(r.values, w));
  }

  /** Redelivery after an error: a run that an item already moved is not moved again by it,
      although its row was released. */
  lemma MovedRunIsNotMovedAgain(s: Tables, item: Item, c: Context, again: Context)
    requires TablesOk(s) && Target(item, again.notices) == Target(item, c.notices)
    ensures var s' := Once(s, item, c).0; s'.runs != s.runs ==> Once(s', item, again).0.runs == s'.runs
  {
    hide RunOk, SlaResume, Open, TablesOk;
    var s' := Once(s, item, c).0;
    if s'.runs != s.runs {
      var k := Target(item, c.notices).value;
      assert Pending(s.runs, k) == Some(AwaitSlaResponse);
      PendingHolds(s, k);
      ClientSignalResolves(s.runs[k], SignalOf(item), c.world);
      assert s'.runs == s.runs[k := SlaResume(s.runs[k], SignalOf(item), c.world)];
      assert Pending(s'.runs, k) == None;
    }
  }

  /** A delivery status touches a run exactly when it reports the current notice failed
      while the call waits for the client; then the call ends missed. */
  lemma OnlyCurrentFailureEscalates(s: Tables, item: Item, c: Context)
    requires TablesOk(s) && item.StatusItem? && RowOf(item) !in s.rows && !c.writeFails
    ensures var target, s' := Target(item, c.notices), Once(s, item, c).0;
      var hit := item.status == "failed" && target.Some? && target.value in s.runs
                 && s.runs[target.value].values.messageId == Some(item.id)
                 && Pending(s.runs, target.value) == Some(AwaitSlaResponse);
      && (s'.runs != s.runs <==> hit)
      && (hit ==> s'.runs[target.value].values.sla == Some(Missed)
                  && s'.runs == s.runs[target.value := s'.runs[target.value]])
  {
    hide RunOk, SlaResume, Open, TablesOk;
    var target := Target(item, c.notices);
    if target.Some? && target.value in s.runs && Pending(s.runs, target.value) == Some(AwaitSlaResponse) {
      var k := target.value;
      PendingHolds(s, k);
      SlaOutcomes(s.runs[k], SignalOf(item), c.world);
      ClientSignalResolves(s.runs[k], SignalOf(item), c.world);
    }
  }

  /** The tap comes from the number the run's own notice went to - its contact unchanged
      since, or the default number - quotes no other notice, and the call waits for the client. */
  predicate Acknowledges(runs: map<Key, Run>, k: Key, item: Item, c: Context)
    requires item.MessageItem?
  {
    k in runs && Pending(runs, k) == Some(AwaitSlaResponse)
    && var v := runs[k].values;
    && Digits(item.sender) != ""
    && (match v.routing
        case Some(ToContact(id, version)) =>
          id in c.contacts && c.contacts[id].active && c.contacts[id].version == version
          && Digits(c.contacts[id].phone) == Digits(item.sender)
        case _ => Digits(c.fallback) == Digits(item.sender))
    && (item.quoted.Some? && item.quoted.value != "" ==> item.quoted == v.messageId)
  }

  /** A tap moves a run exactly when it acknowledges it; then, in time, or unless a timer
      checked before, the call is met. */
  lemma OnlyTheContactAcknowledges(s: Tables, item: Item, c: Context)
    requires TablesOk(s) && item.MessageItem? && RowOf(item) !in s.rows
    ensures var target, s' := Target(item, c.notices), Once(s, item, c).0;
      (s'.runs != s.runs <==> target.Some? && Acknowledges(s.runs, target.value, item, c))
    ensures var target, s' := Target(item, c.notices), Once(s, item, c).0;
      target.Some? && Acknowledges(s.runs, target.value, item, c) ==>
        var v := s.runs[target.value].values;
        && v.sentAt.Some? && s'.runs == s.runs[target.value := s'.runs[target.value]]
        && (s'.runs[target.value].values.sla == Some(Met) <==>
              c.world.now < Deadline(v, c.world) || s.runs[target.value].place.signals == [])
  {
    hide RunOk, SlaResume, Open, TablesOk;
    var target := Target(item, c.notices);
    if target.Some? && target.value in s.runs && Pending(s.runs, target.value) == Some(AwaitSlaResponse) {
      var k := target.value;
      PendingHolds(s, k);
      SlaOutcomes(s.runs[k], Responded, c.world);
      ClientSignalResolves(s.runs[k], Responded, c.world);
    }
  }

  /** Redelivering a whole payload that went through changes nothing and reports only duplicates. */
  lemma {:induction false} PayloadTakesEffectOnce(s: Tables, items: seq<Item>, cs: seq<Context>, again: seq<Context>)
    requires |items| == |cs| == |again|
    requires NoError(Process(s, items, cs).1)
    ensures var s' := Process(s, items, cs).0;
      && (forall i :: 0 <= i < |items| ==> RowOf(items[i]) in s'.rows)
      && Process(s', items, again) == (s', seq(|items|, i => Duplicate))
  {
    var s' := Process(s, items, cs).0;
    PayloadClaims(s, items, cs);
    ClaimedPayloadIsNoOp(s', items, again);
  }

  lemma {:induction false} PayloadClaims(s: Tables, items: seq<Item>, cs: seq<Context>)
    requires |items| == |cs|
    requires NoError(Process(s, items, cs).1)
    ensures var s' := Process(s, items, cs).0;
      && (forall i :: 0 <= i < |items| ==> RowOf(items[i]) in s'.rows)
      && (forall r | r in s.rows :: r in s'.rows)
    decreases |items|
  {
    hide Once;
    if items != [] {
      var (s1, outcome) := Once(s, items[0], cs[0]);
      ItemTakesEffectOnce(s, items[0], cs[0], cs[0]);
      NoErrorTail(s, items, cs);
      PayloadClaims(s1, items[1..], cs[1..]);
      RowKnown(s, items[0], cs[0]);
      assert forall i :: 1 <= i < |items| ==> items[i] == items[1..][i - 1];
    }
  }

  lemma RowKnown(s: Tables, item: Item, c: Context)
    requires Once(s, item, c).1 != Error
    ensures RowOf(item) in Once(s, item, c).0.rows
  {
    hide SlaResume, Judgement;
  }

  lemma {:induction false} ClaimedPayloadIsNoOp(s: Tables, items: seq<Item>, cs: seq<Context>)
    requires |items| == |cs| && forall i :: 0 <= i < |items| ==> RowOf(items[i]) in s.rows
    ensures Process(s, items, cs) == (s, seq(|items|, i => Duplicate))
    decreases |items|
  {
    if items == [] {
      assert seq(|items|, i => Duplicate) == [];
    } else {
      ClaimedPayloadIsNoOp(s, items[1..], cs[1..]);
      assert Once(s, items[0], cs[0]) == (s, Duplicate);
      assert Process(s, items, cs) == (s, [Duplicate] + seq(|items| - 1, i => Duplicate));
      assert [Duplicate] + seq(|items| - 1, i => Duplicate) == seq(|items|, i => Duplicate);
    }
  }
}
