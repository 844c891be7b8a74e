/** The five-year collateral ledger (src/warehouse/backfill.py, Simulation.days):
    one account per counterparty, walked day by day. The account functions say
    what a day does; the lemmas are about whole histories; `Days` is the in-place
    array walk, proved equal to the account functions for every counterparty. */
module Ledger {
  import opened Wrappers
  import opened Calc
  import VC = VectorCalc

  const MIN_COLLATERAL: real := 10000.0

  // ----- one account -----------------------------------------------------------

  /** `settleDay` is the price-matrix index on which `pending` arrives; -1 when no call is open. */
  datatype Account = Account(collateral: real, pending: real, settleDay: int)

  /** What one trading day brings to one counterparty. */
  datatype Inputs = Inputs(exposure: real, threshold: real, mta: real, factor: real, slaMet: bool, monthEnd: bool)

  function Settle(a: Account, t: int): Account {
    if a.settleDay == t then Account(a.collateral + a.pending, 0.0, -1) else a
  }

  function OpeningCollateral(d: Inputs): real {
    Max(MIN_COLLATERAL, Scaled(Max(0.0, d.exposure - d.threshold), d.factor))
  }

  function Open(a: Account, first: bool, d: Inputs): Account {
    if first then a.(collateral := OpeningCollateral(d)) else a
  }

  function Shortfall(a: Account, d: Inputs): real {
    RequiredSupport(d.exposure, d.threshold) - a.collateral
  }

  predicate Breached(a: Account, d: Inputs) {
    Shortfall(a, d) > 0.0 && Shortfall(a, d) >= d.mta
  }

  predicate Raises(a: Account, d: Inputs) {
    Breached(a, d) && a.settleDay < 0
  }

  function Lag(d: Inputs): int {
    if d.slaMet then 1 else 2
  }

  function Raise(a: Account, t: int, d: Inputs): Account {
    if Raises(a, d) then Account(a.collateral, Shortfall(a, d), t + Lag(d)) else a
  }

  function Returned(a: Account, d: Inputs): real {
    if d.monthEnd && a.settleDay < 0
    then VC.ReturnAmount(a.collateral, RequiredSupport(d.exposure, d.threshold), d.mta)
    else 0.0
  }

  /** The account a day's breach test sees: deliveries in, opening collateral set. */
  function Morning(a: Account, t: int, first: bool, d: Inputs): Account {
    Open(Settle(a, t), first, d)
  }

  function Evening(a: Account, t: int, first: bool, d: Inputs): Account {
    var raised := Raise(Morning(a, t, first, d), t, d);
    raised.(collateral := raised.collateral - Returned(raised, d))
  }

  // ----- a history ------------------------------------------------------------

  const FLAT := Account(0.0, 0.0, -1)

  /** The account after the first `k` days of `ds`; day `j` has matrix index `t0 + j`. */
  function After(ds: seq<Inputs>, t0: int, k: nat): Account
    requires k <= |ds|
  {
    if k == 0 then FLAT else Evening(After(ds, t0, k - 1), t0 + k - 1, k == 1, ds[k - 1])
  }

  function MorningOf(ds: seq<Inputs>, t0: int, j: nat): Account
    requires j < |ds|
  {
    Morning(After(ds, t0, j), t0 + j, j == 0, ds[j])
  }

  predicate RaisedOn(ds: seq<Inputs>, t0: int, j: nat)
    requires j < |ds|
  {
    Raises(MorningOf(ds, t0, j), ds[j])
  }

  function CallOn(ds: seq<Inputs>, t0: int, j: nat): real
    requires j < |ds|
  {
    if RaisedOn(ds, t0, j) then Shortfall(MorningOf(ds, t0, j), ds[j]) else 0.0
  }

  function ReturnOn(ds: seq<Inputs>, t0: int, j: nat): real
    requires j < |ds|
  {
    Returned(Raise(MorningOf(ds, t0, j), t0 + j, ds[j]), ds[j])
  }

  function DeliveredOn(ds: seq<Inputs>, t0: int, j: nat): real
    requires j < |ds|
  {
    if After(ds, t0, j).settleDay == t0 + j then After(ds, t0, j).pending else 0.0
  }

  function TotalCalled(ds: seq<Inputs>, t0: int, k: nat): real
    requires k <= |ds|
  {
    if k == 0 then 0.0 else TotalCalled(ds, t0, k - 1) + CallOn(ds, t0, k - 1)
  }

  function TotalReturned(ds: seq<Inputs>, t0: int, k: nat): real
    requires k <= |ds|
  {
    if k == 0 then 0.0 else TotalReturned(ds, t0, k - 1) + ReturnOn(ds, t0, k - 1)
  }

  function TotalDelivered(ds: seq<Inputs>, t0: int, k: nat): real
    requires k <= |ds|
  {
    if k == 0 then 0.0 else TotalDelivered(ds, t0, k - 1) + DeliveredOn(ds, t0, k - 1)
  }

  /** What every day keeps. After `k` days the next index is `t0 + k`, so an open
      call settles on one of the next two trading days. */
  predicate AccountOk(a: Account, next: int) {
    && a.collateral >= 0.0
    && (a.settleDay == -1 || next <= a.settleDay <= next + 1)
    && (a.settleDay == -1 ==> a.pending == 0.0)
    && (a.settleDay != -1 ==> a.pending > 0.0)
  }

  lemma EveningKeepsOk(a: Account, t: int, first: bool, d: Inputs)
    requires AccountOk(a, t) && t >= 0 && (first ==> a == FLAT)
    ensures AccountOk(Evening(a, t, first, d), t + 1)
  {
  }

  lemma {:induction false} HistoryOk(ds: seq<Inputs>, t0: nat, k: nat)
    requires k <= |ds|
    ensures AccountOk(After(ds, t0, k), t0 + k)
  {
    if k > 0 {
      HistoryOk(ds, t0, k - 1);
      EveningKeepsOk(After(ds, t0, k - 1), t0 + k - 1, k == 1, ds[k - 1]);
    }
  }

  /** Conservation: collateral held plus the call in flight is the opening
      collateral plus everything called minus everything returned; and everything
      called has been delivered or is the one call still in flight. */
  lemma {:induction false} Conservation(ds: seq<Inputs>, t0: nat, k: nat)
    requires 0 < k <= |ds|
    ensures var a := After(ds, t0, k);
      && a.collateral + a.pending
         == OpeningCollateral(ds[0]) + TotalCalled(ds, t0, k) - TotalReturned(ds, t0, k)
      && TotalDelivered(ds, t0, k) + a.pending == TotalCalled(ds, t0, k)
  {
    HistoryOk(ds, t0, k - 1);
    if k > 1 {
      Conservation(ds, t0, k - 1);
    } else {
      assert After(ds, t0, 0) == FLAT;
      assert TotalCalled(ds, t0, 0) == TotalReturned(ds, t0, 0) == TotalDelivered(ds, t0, 0) == 0.0;
    }
  }

  /** A call raised on day `j` is a real shortfall that clears the transfer
      minimum, no call is raised again until it is delivered, and its whole amount
      arrives in one delivery `Lag` trading days later - or it is still in flight
      when the history ends first. */
  lemma CallIsDeliveredOnce(ds: seq<Inputs>, t0: nat, j: nat)
    requires j < |ds| && RaisedOn(ds, t0, j)
    ensures var due := j + Lag(ds[j]); var amount := CallOn(ds, t0, j);
      && amount > 0.0 && amount >= ds[j].mta
      && MorningOf(ds, t0, j).settleDay == -1
      && (forall m | j < m < due && m < |ds| :: !RaisedOn(ds, t0, m) && DeliveredOn(ds, t0, m) == 0.0)
      && (due < |ds| ==> DeliveredOn(ds, t0, due) == amount)
      && (forall m | j < m <= due && m <= |ds| :: After(ds, t0, m).pending == amount)
  {
    HistoryOk(ds, t0, j);
    assert After(ds, t0, j + 1) == Evening(After(ds, t0, j), t0 + j, j == 0, ds[j]);
    if j + 1 < |ds| && Lag(ds[j]) == 2 {
      assert After(ds, t0, j + 2) == Evening(After(ds, t0, j + 1), t0 + j + 1, false, ds[j + 1]);
    }
  }

  /** Nothing is delivered that was not called: a delivery on day `j` is the call of
      exactly one of the two days before it. */
  lemma DeliveryHasOneCall(ds: seq<Inputs>, t0: nat, j: nat)
    requires j < |ds| && DeliveredOn(ds, t0, j) != 0.0
    ensures exists c: nat ::
      && c < j && RaisedOn(ds, t0, c) && c + Lag(ds[c]) == j && CallOn(ds, t0, c) == DeliveredOn(ds, t0, j)
      && forall c': nat | c' < j && c' != c && RaisedOn(ds, t0, c') :: c' + Lag(ds[c']) != j
  {
    HistoryOk(ds, t0, j);
    var a := After(ds, t0, j);
    assert j > 0;
    HistoryOk(ds, t0, j - 1);
    assert a == Evening(After(ds, t0, j - 1), t0 + j - 1, j == 1, ds[j - 1]);
    if RaisedOn(ds, t0, j - 1) {
      var c: nat := j - 1;
      CallIsDeliveredOnce(ds, t0, c);
      forall c': nat | c' < j && c' != c && RaisedOn(ds, t0, c') ensures c' + Lag(ds[c']) != j {
        CallIsDeliveredOnce(ds, t0, c');
      }
    } else {
      assert j > 1;
      HistoryOk(ds, t0, j - 2);
      assert After(ds, t0, j - 1) == Evening(After(ds, t0, j - 2), t0 + j - 2, j == 2, ds[j - 2]);
      var c: nat := j - 2;
      assert RaisedOn(ds, t0, c);
      CallIsDeliveredOnce(ds, t0, c);
    }
  }

  /** A month-end return never opens a shortfall: whatever is handed back leaves
      exactly the support required that day, only excess clearing the minimum is
      handed back, and never while a call is open. */
  lemma ReturnLeavesNoShortfall(ds: seq<Inputs>, t0: nat, j: nat)
    requires j < |ds| && ReturnOn(ds, t0, j) != 0.0
    ensures var required := RequiredSupport(ds[j].exposure, ds[j].threshold);
      var evening := After(ds, t0, j + 1);
      && ds[j].monthEnd && !RaisedOn(ds, t0, j) && evening.settleDay == -1
      && evening.collateral == required
      && ReturnOn(ds, t0, j) == MorningOf(ds, t0, j).collateral - required
      && ReturnOn(ds, t0, j) > 0.0 && ReturnOn(ds, t0, j) >= ds[j].mta
      && !Breached(evening, ds[j])
  {
    HistoryOk(ds, t0, j);
  }

  lemma {:induction false} PrefixDecides(ds: seq<Inputs>, ds': seq<Inputs>, t0: int, k: nat)
    requires k <= |ds| && k <= |ds'| && ds[..k] == ds'[..k]
    ensures After(ds, t0, k) == After(ds', t0, k)
  {
    if k > 0 {
      assert ds[..k - 1] == ds[..k][..k - 1] == ds'[..k - 1];
      assert ds[k - 1] == ds[..k][k - 1] == ds'[k - 1];
      PrefixDecides(ds, ds', t0, k - 1);
    }
  }

  // ----- the whole book ---------------------------------------------------------

  /** A calendar date: its ordinal, and its month for the month-end test. */
  datatype TradingDate = TradingDate(ordinal: int, month: int)

  /** One row of a counterparty's terms and rating on one date. */
  datatype TermsRow = TermsRow(
      threshold: real, mta: real, rating: Option<Rating>, trigger: Option<Rating>, reduced: real)

  /** The simulated book on the price matrix. `closes[t]` holds the priced tickers of day `t`. */
  datatype Book = Book(
    n: nat, positions: seq<Position>, cp: seq<nat>, factors: seq<real>,
    dates: seq<TradingDate>, closes: seq<map<string, real>>, vix: seq<real>,
    terms: seq<seq<TermsRow>>, slaMet: seq<seq<bool>>)
  {
    ghost predicate Valid() {
      && |positions| == |cp| && VC.InRange(cp, n) && |factors| == n
      && |closes| == |vix| == |terms| == |slaMet| == |dates|
      && (forall t :: 0 <= t < |dates| ==> |terms[t]| == n && |slaMet[t]| == n)
      && (forall s, t :: 0 <= s < t < |dates| ==> dates[s].ordinal <= dates[t].ordinal)
    }
  }

  function Active(positions: seq<Position>, cp: seq<nat>, today: map<string, real>, prior: map<string, real>)
    : (r: (seq<Position>, seq<nat>))
    requires |positions| == |cp|
    ensures |r.0| == |r.1| && PricedBy(r.0, today) && PricedBy(r.0, prior)
    ensures forall n | VC.InRange(cp, n) :: VC.InRange(r.1, n)
  {
    if positions == [] then ([], [])
    else
      var (ps, cs) := Active(positions[1..], cp[1..], today, prior);
      var p := positions[0];
      if p.ticker in today && p.ticker in prior then
        assert forall n | VC.InRange(cp, n) :: VC.InRange([cp[0]] + cs, n) by {
          forall n | VC.InRange(cp, n) ensures VC.InRange([cp[0]] + cs, n) {
            assert VC.InRange(cp[1..], n);
          }
        }
        ([p] + ps, [cp[0]] + cs)
      else
        assert forall n | VC.InRange(cp, n) :: VC.InRange(cs, n) by {
          forall n | VC.InRange(cp, n) ensures VC.InRange(cs, n) {
            assert VC.InRange(cp[1..], n);
          }
        }
        (ps, cs)
  }

  datatype Market = Market(exposure: seq<real>, threshold: seq<real>, mta: seq<real>)

  /** The array expressions of one trading day, before any state changes. */
  function MarketOn(b: Book, t: nat): (m: Result<Market, PricingError>)
    requires b.Valid() && 1 <= t < |b.dates|
    ensures m.Success? ==> |m.value.exposure| == |m.value.threshold| == |m.value.mta| == b.n
  {
    var today, prior := b.closes[t], b.closes[t - 1];
    var (ps, cp) := Active(b.positions, b.cp, today, prior);
    var q := VC.Quantities(ps);
    var vm := VC.VariationMargins(
      VC.PortfolioMtms(cp, q, VC.PricesAt(ps, today), b.n), VC.PortfolioMtms(cp, q, VC.PricesAt(ps, prior), b.n));
    var im :- VC.InitialMargins(cp, q, VC.PricesAt(ps, today), VC.Weights(ps), b.vix[t], b.n);
    var rows := b.terms[t];
    var threshold := ThresholdsOf(rows);
    Success(Market(VC.Plus(vm, im), threshold, seq(b.n, i requires 0 <= i < b.n => rows[i].mta)))
  }

  function ThresholdsOf(rows: seq<TermsRow>): seq<real> {
    VC.EffectiveThresholds(
      seq(|rows|, i requires 0 <= i < |rows| => rows[i].threshold),
      seq(|rows|, i requires 0 <= i < |rows| => VC.RatingRank(rows[i].rating)),
      seq(|rows|, i requires 0 <= i < |rows| => VC.TriggerRank(rows[i].trigger)),
      seq(|rows|, i requires 0 <= i < |rows| => rows[i].reduced))
  }

  lemma ThresholdIsScalar(rows: seq<TermsRow>, i: nat, currency: string)
    requires i < |rows|
    ensures var row := rows[i];
      |ThresholdsOf(rows)| == |rows|
      && ThresholdsOf(rows)[i]
         == EffectiveThreshold(VC.RowTerms(row.threshold, row.mta, currency, row.trigger, row.reduced), row.rating)
  {
    var n := |rows|;
    var threshold := seq(n, k requires 0 <= k < n => rows[k].threshold);
    var mta := seq(n, k requires 0 <= k < n => rows[k].mta);
    var rating := seq(n, k requires 0 <= k < n => rows[k].rating);
    var trigger := seq(n, k requires 0 <= k < n => rows[k].trigger);
    var reduced := seq(n, k requires 0 <= k < n => rows[k].reduced);
    var zeros := seq(n, k requires 0 <= k < n => 0.0);
    VC.VectorBreachIsScalar(zeros, zeros, threshold, mta, rating, trigger, reduced, currency, i);
    assert seq(n, k requires 0 <= k < n => VC.RatingRank(rating[k]))
        == seq(n, k requires 0 <= k < n => VC.RatingRank(rows[k].rating));
    assert seq(n, k requires 0 <= k < n => VC.TriggerRank(trigger[k]))
        == seq(n, k requires 0 <= k < n => VC.TriggerRank(rows[k].trigger));
  }

  /** What day `t` brings counterparty `i` is the scalar engine's exposure of its own
      active positions and its scalar threshold, whenever it holds an active position. */
  lemma MarketIsScalar(b: Book, t: nat, i: nat, currency: string)
    requires b.Valid() && 1 <= t < |b.dates| && i < b.n && MarketOn(b, t).Success?
    ensures var (ps, cp) := Active(b.positions, b.cp, b.closes[t], b.closes[t - 1]);
      var own := VC.Own(ps, cp, i);
      var row := b.terms[t][i];
      var m := MarketOn(b, t).value;
      && m.threshold[i]
         == EffectiveThreshold(VC.RowTerms(row.threshold, row.mta, currency, row.trigger, row.reduced), row.rating)
      && m.mta[i] == row.mta
      && (own != [] && SinglePortfolio(own) ==>
            Exposure(own, b.closes[t], b.closes[t - 1], b.vix[t]) == Success(m.exposure[i]))
  {
    hide VC.EffectiveThresholds, EffectiveThreshold, Exposure, VC.PortfolioMtms, VC.Own;
    var (ps, cp) := Active(b.positions, b.cp, b.closes[t], b.closes[t - 1]);
    ThresholdIsScalar(b.terms[t], i, currency);
    if VC.Own(ps, cp, i) != [] && SinglePortfolio(VC.Own(ps, cp, i)) {
      VC.VectorExposureIsScalar(ps, cp, b.closes[t], b.closes[t - 1], b.vix[t], b.n, i);
    }
  }

  predicate IsMonthEnd(dates: seq<TradingDate>, t: nat)
    requires t < |dates|
  {
    t + 1 >= |dates| || dates[t + 1].month != dates[t].month
  }

  function InputsOf(b: Book, t: nat, i: nat): Inputs
    requires b.Valid() && 1 <= t < |b.dates| && i < b.n && MarketOn(b, t).Success?
  {
    var m := MarketOn(b, t).value;
    Inputs(m.exposure[i], m.threshold[i], m.mta[i], b.factors[i], b.slaMet[t][i], IsMonthEnd(b.dates, t))
  }

  ghost predicate Priced(b: Book, t0: nat, k: nat)
    requires b.Valid()
  {
    1 <= t0 && (k > 0 ==> t0 + k <= |b.dates|) && forall t :: t0 <= t < t0 + k ==> MarketOn(b, t).Success?
  }

  /** Counterparty `i`'s history over the `k` trading days from index `t0`. */
  ghost function History(b: Book, t0: nat, i: nat, k: nat): seq<Inputs>
    requires b.Valid() && Priced(b, t0, k) && i < b.n
  {
    seq(k, j requires 0 <= j < k => InputsOf(b, t0 + j, i))
  }

  datatype SimCall = SimCall(counterparty: nat, amount: real, exposure: real, held: real, threshold: real, slaMet: bool)

  datatype Day = Day(
    index: nat, asOf: int, market: Market, held: seq<real>, breaches: VC.Breaches, raised: seq<bool>,
    calls: seq<SimCall>)

  /** The calls of the raised counterparties below `i`, in counterparty order. */
  function CallsBelow(m: Market, held: seq<real>, due: seq<real>, raised: seq<bool>, slaMet: seq<bool>, i: nat)
    : seq<SimCall>
    requires i <= |raised| == |slaMet| == |held| == |due| == |m.exposure| == |m.threshold|
  {
    if i == 0 then []
    else
      var k := i - 1;
      CallsBelow(m, held, due, raised, slaMet, k)
      + (if raised[k] then [SimCall(k, due[k], m.exposure[k], held[k], m.threshold[k], slaMet[k])] else [])
  }

  /** What the record of the `k`-th trading day must say about every counterparty. */
  ghost predicate RecordsDay(b: Book, t0: nat, k: nat, day: Day)
    requires b.Valid() && Priced(b, t0, k + 1)
  {
    var t := t0 + k;
    && day.index == t && day.asOf == b.dates[t].ordinal && day.market == MarketOn(b, t).value
    && |day.held| == |day.breaches.breached| == |day.breaches.callDue| == |day.raised| == b.n
    && (forall i | 0 <= i < b.n ::
          var ds := History(b, t0, i, k + 1);
          var morning := MorningOf(ds, t0, k);
          && day.held[i] == morning.collateral
          && day.breaches.breached[i] == Breached(morning, ds[k])
          && day.breaches.callDue[i] == (if Breached(morning, ds[k]) then Shortfall(morning, ds[k]) else 0.0)
          && day.raised[i] == RaisedOn(ds, t0, k))
    && day.calls == CallsBelow(day.market, day.held, day.breaches.callDue, day.raised, b.slaMet[t], b.n)
  }

  // ----- the in-place walk ---------------------------------------------------------

  ghost predicate Shape(n: nat, c: array<real>, p: array<real>, s: array<int>) {
    c.Length == p.Length == s.Length == n && c != p
  }

  ghost function Acc(c: array<real>, p: array<real>, s: array<int>, i: nat): Account
    requires i < c.Length == p.Length == s.Length
    reads c, p, s
  {
    Account(c[i], p[i], s[i])
  }

  method SettleAll(c: array<real>, p: array<real>, s: array<int>, t: nat)
    requires Shape(c.Length, c, p, s)
    modifies c, p, s
    ensures forall i | 0 <= i < c.Length :: Acc(c, p, s, i) == Settle(old(Acc(c, p, s, i)), t)
  {
    for k := 0 to c.Length
      invariant forall i | 0 <= i < k :: Acc(c, p, s, i) == Settle(old(Acc(c, p, s, i)), t)
      invariant forall i | k <= i < c.Length :: c[i] == old(c[i]) && p[i] == old(p[i]) && s[i] == old(s[i])
    {
      assert old(Acc(c, p, s, k)) == Account(c[k], p[k], s[k]);
      if s[k] == t {
        c[k] := c[k] + p[k];
        p[k] := 0.0;
        s[k] := -1;
      }
      assert Acc(c, p, s, k) == Settle(old(Acc(c, p, s, k)), t);
    }
  }

  method OpenAll(c: array<real>, m: Market, factors: seq<real>)
    requires |m.exposure| == |m.threshold| == |factors| == c.Length
    modifies c
    ensures forall i | 0 <= i < c.Length ::
      c[i] == Max(MIN_COLLATERAL, Scaled(Max(0.0, m.exposure[i] - m.threshold[i]), factors[i]))
  {
    for k := 0 to c.Length
      invariant forall i | 0 <= i < k ::
        c[i] == Max(MIN_COLLATERAL, Scaled(Max(0.0, m.exposure[i] - m.threshold[i]), factors[i]))
    {
      c[k] := Max(MIN_COLLATERAL, Scaled(Max(0.0, m.exposure[k] - m.threshold[k]), factors[k]));
    }
  }

  /** Raises the day's calls: `raised` was decided from the breaches before any account changes. */
  method RaiseAll(p: array<real>, s: array<int>, t: nat, m: Market, held: seq<real>, due: seq<real>, raised: seq<bool>,
                  slaMet: seq<bool>) returns (calls: seq<SimCall>)
    requires p.Length == s.Length == |held| == |due| == |raised| == |slaMet| == |m.exposure| == |m.threshold|
    modifies p, s
    ensures forall i | 0 <= i < p.Length ::
      && p[i] == (if raised[i] then due[i] else old(p[i]))
      && s[i] == (if raised[i] then t + (if slaMet[i] then 1 else 2) else old(s[i]))
    ensures calls == CallsBelow(m, held, due, raised, slaMet, p.Length)
  {
    calls := [];
    for k := 0 to p.Length
      invariant forall i | 0 <= i < k ::
        && p[i] == (if raised[i] then due[i] else old(p[i]))
        && s[i] == (if raised[i] then t + (if slaMet[i] then 1 else 2) else old(s[i]))
      invariant forall i | k <= i < p.Length :: p[i] == old(p[i]) && s[i] == old(s[i])
      invariant calls == CallsBelow(m, held, due, raised, slaMet, k)
    {
      if raised[k] {
        calls := calls + [SimCall(k, due[k], m.exposure[k], held[k], m.threshold[k], slaMet[k])];
        p[k] := due[k];
        s[k] := t + (if slaMet[k] then 1 else 2);
      }
    }
  }

  method ReturnAll(c: array<real>, s: array<int>, required: seq<real>, mta: seq<real>)
    requires c.Length == s.Length == |required| == |mta|
    modifies c
    ensures forall i | 0 <= i < c.Length ::
      c[i] == old(c[i]) - (if s[i] >= 0 then 0.0 else VC.ReturnAmount(old(c[i]), required[i], mta[i]))
  {
    var returned := VC.ReturnAmounts(c[..], required, mta);
    for k := 0 to c.Length
      invariant forall i | 0 <= i < k ::
        c[i] == old(c[i]) - (if s[i] >= 0 then 0.0 else VC.ReturnAmount(old(c[i]), required[i], mta[i]))
      invariant forall i | k <= i < c.Length :: c[i] == old(c[i])
    {
      if s[k] < 0 {
        c[k] := c[k] - returned[k];
      }
    }
  }

  predicate InWindow(d: TradingDate, start: int, end: int) {
    start <= d.ordinal <= end
  }

  method MorningAll(b: Book, t: nat, first: bool, m: Market, c: array<real>, p: array<real>, s: array<int>)
    requires b.Valid() && 1 <= t < |b.dates| && MarketOn(b, t) == Success(m) && Shape(b.n, c, p, s)
    modifies c, p, s
    ensures forall i | 0 <= i < b.n ::
      Acc(c, p, s, i) == Morning(old(Acc(c, p, s, i)), t, first, InputsOf(b, t, i))
  {
    hide MarketOn;
    SettleAll(c, p, s, t);
    if first {
      OpenAll(c, m, b.factors);
    }
  }

  /** The breach test and the calls of the day, from the collateral held this morning. */
  method CallAll(b: Book, t: nat, m: Market, c: array<real>, p: array<real>, s: array<int>) returns (day: Day)
    requires b.Valid() && 1 <= t < |b.dates| && MarketOn(b, t) == Success(m) && Shape(b.n, c, p, s)
    modifies p, s
    ensures forall i | 0 <= i < b.n ::
      Acc(c, p, s, i) == Raise(old(Acc(c, p, s, i)), t, InputsOf(b, t, i))
    ensures day.index == t && day.asOf == b.dates[t].ordinal && day.market == m
    ensures |day.held| == |day.raised| == b.n
    ensures day.breaches == VC.EvaluateBreaches(m.exposure, old(c[..]), m.threshold, m.mta)
    ensures forall i | 0 <= i < b.n ::
      var d := InputsOf(b, t, i);
      var morning := old(Acc(c, p, s, i));
      && day.held[i] == morning.collateral
      && day.breaches.breached[i] == Breached(morning, d)
      && day.breaches.callDue[i] == (if Breached(morning, d) then Shortfall(morning, d) else 0.0)
      && day.raised[i] == Raises(morning, d)
    ensures day.calls == CallsBelow(m, day.held, day.breaches.callDue, day.raised, b.slaMet[t], b.n)
  {
    hide MarketOn;
    var held := c[..];
    var breaches := VC.EvaluateBreaches(m.exposure, held, m.threshold, m.mta);
    var raised := new bool[b.n](i requires 0 <= i < b.n reads s => breaches.breached[i] && s[i] < 0);
    var calls := RaiseAll(p, s, t, m, held, breaches.callDue, raised[..], b.slaMet[t]);
    day := Day(t, b.dates[t].ordinal, m, held, breaches, raised[..], calls);
  }

  /** One trading day on the arrays is one evening of every account. */
  method WalkDay(b: Book, t: nat, first: bool, m: Market, c: array<real>, p: array<real>, s: array<int>)
    returns (day: Day)
    requires b.Valid() && 1 <= t < |b.dates| && MarketOn(b, t) == Success(m) && Shape(b.n, c, p, s)
    modifies c, p, s
    ensures forall i | 0 <= i < b.n ::
      Acc(c, p, s, i) == Evening(old(Acc(c, p, s, i)), t, first, InputsOf(b, t, i))
    ensures day.index == t && day.asOf == b.dates[t].ordinal && day.market == m
    ensures |day.held| == |day.breaches.breached| == |day.breaches.callDue| == |day.raised| == b.n
    ensures forall i | 0 <= i < b.n ::
      var d := InputsOf(b, t, i);
      var morning := Morning(old(Acc(c, p, s, i)), t, first, d);
      && day.held[i] == morning.collateral
      && day.breaches.breached[i] == Breached(morning, d)
      && day.breaches.callDue[i] == (if Breached(morning, d) then Shortfall(morning, d) else 0.0)
      && day.raised[i] == Raises(morning, d)
    ensures day.calls == CallsBelow(m, day.held, day.breaches.callDue, day.raised, b.slaMet[t], b.n)
  {
    hide MarketOn, Morning;
    MorningAll(b, t, first, m, c, p, s);
    day := CallAll(b, t, m, c, p, s);
    if IsMonthEnd(b.dates, t) {
      ReturnAll(c, s, day.breaches.required, m.mta);
    }
  }

  lemma {:induction false} HistoryStep(b: Book, t0: nat, i: nat, k: nat, m: nat)
    requires b.Valid() && Priced(b, t0, m) && k <= m && i < b.n
    ensures After(History(b, t0, i, m), t0, k) == After(History(b, t0, i, k), t0, k)
  {
    PrefixDecides(History(b, t0, i, m), History(b, t0, i, k), t0, k);
  }

  /** The arrays hold every counterparty's account after `k` trading days from `t0`. */
  ghost predicate HoldsAccounts(b: Book, t0: nat, k: nat, c: array<real>, p: array<real>, s: array<int>)
    requires b.Valid() && Priced(b, t0, k) && Shape(b.n, c, p, s)
    reads c, p, s
  {
    forall i | 0 <= i < b.n :: Acc(c, p, s, i) == After(History(b, t0, i, k), t0, k)
  }

  method NextDay(b: Book, ghost t0: nat, ghost k: nat, t: nat, first: bool, m: Market,
                 c: array<real>, p: array<real>, s: array<int>) returns (day: Day)
    requires b.Valid() && t == t0 + k && t < |b.dates| && first == (k == 0) && Shape(b.n, c, p, s)
    requires Priced(b, t0, k) && MarketOn(b, t) == Success(m) && HoldsAccounts(b, t0, k, c, p, s)
    modifies c, p, s
    ensures Priced(b, t0, k + 1) && HoldsAccounts(b, t0, k + 1, c, p, s)
    ensures RecordsDay(b, t0, k, day) && day.asOf == b.dates[t].ordinal
  {
    hide MarketOn, Evening, Morning, Raises, Breached, Shortfall;
    day := WalkDay(b, t, first, m, c, p, s);
    assert Priced(b, t0, k + 1);
    forall i | 0 <= i < b.n
      ensures After(History(b, t0, i, k + 1), t0, k) == old(Acc(c, p, s, i))
      ensures History(b, t0, i, k + 1)[k] == InputsOf(b, t, i)
    {
      HistoryStep(b, t0, i, k, k + 1);
    }
  }

  lemma FlatBeforeFirst(b: Book, t0: nat, c: array<real>, p: array<real>, s: array<int>)
    requires b.Valid() && Priced(b, t0, 0) && Shape(b.n, c, p, s)
    ensures HoldsAccounts(b, t0, 0, c, p, s) <==> forall i | 0 <= i < b.n :: Acc(c, p, s, i) == FLAT
  {
    assert forall i | 0 <= i < b.n :: After(History(b, t0, i, 0), t0, 0) == FLAT;
  }

  lemma RecordedIndex(b: Book, t0: nat, k: nat, day: Day)
    requires b.Valid() && Priced(b, t0, k + 1) && RecordsDay(b, t0, k, day)
    ensures day.index == t0 + k
  {
  }

  /** The price-matrix index of the first recorded day. */
  function FirstIndex(days: seq<Day>): nat {
    if days == [] then 1 else days[0].index
  }

  /** Index `t` is the window's first day that is not recorded, and its market is in error. */
  ghost predicate StopsAt(b: Book, start: int, end: int, days: seq<Day>, error: PricingError, t: nat)
    requires b.Valid()
  {
    && 1 <= t < |b.dates| && InWindow(b.dates[t], start, end) && MarketOn(b, t) == Failure(error)
    && forall u :: 1 <= u < t && InWindow(b.dates[u], start, end) ==> FirstIndex(days) <= u < FirstIndex(days) + |days|
  }

  /** The walk up to index `t`: the window's days before `t` are recorded, consecutively. */
  ghost predicate Walked(b: Book, start: int, end: int, days: seq<Day>, t: nat)
    requires b.Valid()
  {
    var t0 := FirstIndex(days);
    && 1 <= t0 && t0 + |days| <= t && Priced(b, t0, |days|)
    && (forall k :: 0 <= k < |days| ==> RecordsDay(b, t0, k, days[k]) && start <= days[k].asOf <= end)
    && (forall u :: 1 <= u < t && u < |b.dates| && InWindow(b.dates[u], start, end) ==> t0 <= u < t0 + |days|)
    && (days != [] && t0 + |days| < t && t <= |b.dates| ==> b.dates[t - 1].ordinal > end)
  }

  lemma WalkBegins(b: Book, start: int, end: int)
    requires b.Valid()
    ensures Walked(b, start, end, [], 1)
  {
    hide MarketOn, RecordsDay;
  }

  lemma WalkPasses(b: Book, start: int, end: int, days: seq<Day>, t: nat)
    requires b.Valid() && Walked(b, start, end, days, t) && t < |b.dates| && !InWindow(b.dates[t], start, end)
    ensures Walked(b, start, end, days, t + 1)
  {
    if days != [] {
      RecordedFirst(b, start, end, days, t);
    }
    hide MarketOn, RecordsDay;
  }

  lemma RecordedFirst(b: Book, start: int, end: int, days: seq<Day>, t: nat)
    requires b.Valid() && Walked(b, start, end, days, t) && days != []
    ensures start <= b.dates[FirstIndex(days)].ordinal
  {
    hide MarketOn;
    assert RecordsDay(b, FirstIndex(days), 0, days[0]);
  }

  /** The day a walk may record next comes right after those recorded. */
  lemma WalkIsConsecutive(b: Book, start: int, end: int, days: seq<Day>, t: nat)
    requires b.Valid() && Walked(b, start, end, days, t) && t < |b.dates| && InWindow(b.dates[t], start, end)
    ensures 1 <= FirstIndex(days) && FirstIndex(days) + |days| <= t && Priced(b, FirstIndex(days), |days|)
    ensures days != [] ==> t == FirstIndex(days) + |days|
  {
    hide MarketOn, RecordsDay;
  }

  /** A walk stopped at the window's next day by that day's market. */
  lemma WalkStops(b: Book, start: int, end: int, days: seq<Day>, t: nat, error: PricingError)
    requires b.Valid() && Walked(b, start, end, days, t) && t < |b.dates| && InWindow(b.dates[t], start, end)
    requires MarketOn(b, t) == Failure(error)
    ensures WalkRecorded(b, start, end, days) && StopsAt(b, start, end, days, error, t)
  {
    hide MarketOn, RecordsDay;
  }

  /** What a walk leaves behind: consecutive days of the window, each as the ledger prescribes. */
  ghost predicate WalkRecorded(b: Book, start: int, end: int, days: seq<Day>)
    requires b.Valid()
  {
    Priced(b, FirstIndex(days), |days|)
    && forall k :: 0 <= k < |days| ==> RecordsDay(b, FirstIndex(days), k, days[k]) && start <= days[k].asOf <= end
  }

  lemma WalkEnds(b: Book, start: int, end: int, days: seq<Day>, t: nat)
    requires b.Valid() && Walked(b, start, end, days, t) && t >= |b.dates|
    ensures WalkRecorded(b, start, end, days)
    ensures forall u :: 1 <= u < |b.dates| && InWindow(b.dates[u], start, end) ==>
      FirstIndex(days) <= u < FirstIndex(days) + |days|
  {
    hide MarketOn, RecordsDay;
  }

  lemma RecordsOneMore(b: Book, start: int, end: int, t0: nat, days: seq<Day>, day: Day)
    requires b.Valid() && Priced(b, t0, |days| + 1) && RecordsDay(b, t0, |days|, day) && start <= day.asOf <= end
    requires forall k :: 0 <= k < |days| ==> RecordsDay(b, t0, k, days[k]) && start <= days[k].asOf <= end
    ensures var days' := days + [day];
      forall k :: 0 <= k < |days'| ==> RecordsDay(b, t0, k, days'[k]) && start <= days'[k].asOf <= end
  {
    hide MarketOn, RecordsDay;
    assert forall k :: 0 <= k < |days| ==> (days + [day])[k] == days[k];
  }

  lemma WalkGoesOn(b: Book, start: int, end: int, days: seq<Day>, t: nat, day: Day)
    requires b.Valid() && Walked(b, start, end, days, t) && t < |b.dates| && InWindow(b.dates[t], start, end)
    requires var t0 := if days == [] then t else FirstIndex(days);
      Priced(b, t0, |days| + 1) && RecordsDay(b, t0, |days|, day) && day.asOf == b.dates[t].ordinal
    ensures Walked(b, start, end, days + [day], t + 1)
    ensures FirstIndex(days + [day]) == if days == [] then t else FirstIndex(days)
  {
    hide MarketOn, RecordsDay;
    WalkIsConsecutive(b, start, end, days, t);
    var t0, days' := if days == [] then t else FirstIndex(days), days + [day];
    RecordedIndex(b, t0, |days|, day);
    RecordsOneMore(b, start, end, t0, days, day);
    assert FirstIndex(days') == t0 && t == t0 + |days|;
  }

  /** Every trading day of the window in order: consecutive indices from the window's
      first, each recorded as the ledger of every counterparty prescribes. An unusable
      volatility level stops the walk on the first window day not recorded. */
  method Days(b: Book, start: int, end: int) returns (days: seq<Day>, error: Option<PricingError>)
    requires b.Valid()
    ensures WalkRecorded(b, start, end, days)
    ensures error == None ==> forall t :: 1 <= t < |b.dates| && InWindow(b.dates[t], start, end) ==>
      FirstIndex(days) <= t < FirstIndex(days) + |days|
    ensures error.Some? ==> exists t :: StopsAt(b, start, end, days, error.value, t)
  {
    days, error := [], None;
    var c, p, s := new real[b.n](_ => 0.0), new real[b.n](_ => 0.0), new int[b.n](_ => -1);
    WalkBegins(b, start, end);
    FirstIndexOfNone(days);
    PricedBefore(b, 1);
    FlatBeforeFirst(b, 1, c, p, s);
    hide MarketOn, RecordsDay, HoldsAccounts, Walked, StopsAt, WalkRecorded, FirstIndex, Priced;
    for t := 1 to if b.dates == [] then 1 else |b.dates|
      invariant Shape(b.n, c, p, s) && fresh(c) && fresh(p) && fresh(s)
      invariant Walked(b, start, end, days, t) && 1 <= FirstIndex(days) && Priced(b, FirstIndex(days), |days|)
      invariant HoldsAccounts(b, FirstIndex(days), |days|, c, p, s)
    {
      if !InWindow(b.dates[t], start, end) {
        WalkPasses(b, start, end, days, t);
        continue;
      }
      WalkIsConsecutive(b, start, end, days, t);
      var market := MarketOn(b, t);
      if market.Failure? {
        WalkStops(b, start, end, days, t, market.error);
        return days, Some(market.error);
      }
      days := RecordDay(b, start, end, days, t, market.value, c, p, s);
    }
    WalkEnds(b, start, end, days, if b.dates == [] then 1 else |b.dates|);
  }

  /** Walks the window's next day and records it. */
  method RecordDay(b: Book, ghost start: int, ghost end: int, days: seq<Day>, t: nat, m: Market,
                   c: array<real>, p: array<real>, s: array<int>) returns (days': seq<Day>)
    requires b.Valid() && Walked(b, start, end, days, t) && t < |b.dates| && InWindow(b.dates[t], start, end)
    requires 1 <= t && MarketOn(b, t) == Success(m) && Shape(b.n, c, p, s)
    requires Priced(b, FirstIndex(days), |days|) && HoldsAccounts(b, FirstIndex(days), |days|, c, p, s)
    modifies c, p, s
    ensures Walked(b, start, end, days', t + 1) && 1 <= FirstIndex(days') && Priced(b, FirstIndex(days'), |days'|)
    ensures HoldsAccounts(b, FirstIndex(days'), |days'|, c, p, s)
  {
    hide MarketOn, RecordsDay, HoldsAccounts, Walked, FirstIndex, Priced;
    WalkIsConsecutive(b, start, end, days, t);
    ghost var t0 := if days == [] then t else FirstIndex(days);
    if days == [] {
      FirstIndexOfNone(days);
      PricedBefore(b, t);
      FlatBeforeFirst(b, 1, c, p, s);
      FlatBeforeFirst(b, t, c, p, s);
    }
    var day := NextDay(b, t0, |days|, t, days == [], m, c, p, s);
    WalkGoesOn(b, start, end, days, t, day);
    days' := days + [day];
  }

  lemma FirstIndexOfNone(days: seq<Day>)
    requires days == []
    ensures FirstIndex(days) == 1
  {
  }

  lemma PricedBefore(b: Book, t: nat)
    requires b.Valid() && 1 <= t
    ensures Priced(b, t, 0)
  {
  }
}
