/** The array form of the margin engine used by the backfill
    (src/warehouse/vector_calc.py), and the proof that each of its entries is
    the scalar engine's answer on that counterparty's own positions and terms. */
module VectorCalc {
  import opened Wrappers
  import opened Calc

  // ----- array expressions ----------------------------------------------------

  function Times(a: seq<real>, b: seq<real>): (r: seq<real>)
    requires |a| == |b|
  {
    seq(|a|, k requires 0 <= k < |a| => Scaled(a[k], b[k]))
  }

  function Minus(a: seq<real>, b: seq<real>): (r: seq<real>)
    requires |a| == |b|
  {
    seq(|a|, k requires 0 <= k < |a| => a[k] - b[k])
  }

  function Plus(a: seq<real>, b: seq<real>): (r: seq<real>)
    requires |a| == |b|
  {
    seq(|a|, k requires 0 <= k < |a| => a[k] + b[k])
  }

  function AbsAll(a: seq<real>): seq<real> {
    seq(|a|, k requires 0 <= k < |a| => Abs(a[k]))
  }

  predicate InRange(cp: seq<nat>, n: nat) {
    forall k :: 0 <= k < |cp| ==> cp[k] < n
  }

  /** numpy.bincount with weights: bin `cp[k]` collects `w[k]`, in order. */
  function Bincount(cp: seq<nat>, w: seq<real>, n: nat): (bins: seq<real>)
    requires |cp| == |w| && InRange(cp, n)
    ensures |bins| == n
  {
    if cp == [] then seq(n, _ => 0.0)
    else
      var last := |cp| - 1;
      var bins := Bincount(cp[..last], w[..last], n);
      bins[cp[last] := bins[cp[last]] + w[last]]
  }

  function PortfolioMtms(cp: seq<nat>, quantity: seq<real>, price: seq<real>, n: nat): (mtm: seq<real>)
    requires |cp| == |quantity| == |price| && InRange(cp, n)
    ensures |mtm| == n
  {
    Bincount(cp, Times(quantity, price), n)
  }

  function VariationMargins(today: seq<real>, prior: seq<real>): seq<real>
    requires |today| == |prior|
  {
    Minus(today, prior)
  }

  function InitialMargins(cp: seq<nat>, quantity: seq<real>, price: seq<real>, weight: seq<real>, vix: real, n: nat)
    : (im: Result<seq<real>, PricingError>)
    requires |cp| == |quantity| == |price| == |weight| && InRange(cp, n)
    ensures im.Success? ==> |im.value| == n
  {
    var multiplier :- VixMultiplier(vix);
    var base := Bincount(cp, Times(AbsAll(Times(quantity, price)), weight), n);
    Success(seq(n, i requires 0 <= i < n => Scaled(base[i], multiplier)))
  }

  /** One trigger per agreement; a negative rating rank means unrated. */
  function EffectiveThresholds(threshold: seq<real>, rating: seq<int>, trigger: seq<int>, reduced: seq<real>): seq<real>
    requires |threshold| == |rating| == |trigger| == |reduced|
  {
    seq(|threshold|, i requires 0 <= i < |threshold| =>
      if rating[i] >= 0 && rating[i] > trigger[i] then reduced[i] else threshold[i])
  }

  datatype Breaches = Breaches(breached: seq<bool>, callDue: seq<real>, required: seq<real>)

  function EvaluateBreaches(exposure: seq<real>, held: seq<real>, threshold: seq<real>, mta: seq<real>): (b: Breaches)
    requires |exposure| == |held| == |threshold| == |mta|
    ensures |b.breached| == |b.callDue| == |b.required| == |exposure|
  {
    var n := |exposure|;
    var required := seq(n, i requires 0 <= i < n => Max(0.0, exposure[i] - threshold[i]));
    var delivery := Minus(required, held);
    var breached := seq(n, i requires 0 <= i < n => delivery[i] > 0.0 && delivery[i] >= mta[i]);
    Breaches(breached, seq(n, i requires 0 <= i < n => if breached[i] then delivery[i] else 0.0), required)
  }

  /** The scalar reference for the return of excess collateral. */
  function ReturnAmount(held: real, required: real, mta: real): real {
    var excess := held - required;
    if excess > 0.0 && excess >= mta then excess else 0.0
  }

  function ReturnAmounts(held: seq<real>, required: seq<real>, mta: seq<real>): (r: seq<real>)
    requires |held| == |required| == |mta|
    ensures |r| == |held|
  {
    var excess := Minus(held, required);
    seq(|held|, i requires 0 <= i < |held| => if excess[i] > 0.0 && excess[i] >= mta[i] then excess[i] else 0.0)
  }

  // ----- the arrays a book gives rise to -----------------------------------------

  function Quantities(positions: seq<Position>): seq<real> {
    seq(|positions|, k requires 0 <= k < |positions| => positions[k].quantity)
  }

  function Weights(positions: seq<Position>): seq<real> {
    seq(|positions|, k requires 0 <= k < |positions| => RiskWeight(positions[k].ticker, positions[k].assetClass))
  }

  function PricesAt(positions: seq<Position>, prices: map<string, real>): seq<real>
    requires PricedBy(positions, prices)
  {
    seq(|positions|, k requires 0 <= k < |positions| => assert positions[k] in positions; prices[positions[k].ticker])
  }

  /** The positions the scalar engine is handed for counterparty `i`. */
  function Own(positions: seq<Position>, cp: seq<nat>, i: nat): seq<Position>
    requires |positions| == |cp|
  {
    if positions == [] then []
    else
      var last := |positions| - 1;
      Own(positions[..last], cp[..last], i) + (if cp[last] == i then [positions[last]] else [])
  }

  lemma {:induction false} OwnSubset(positions: seq<Position>, cp: seq<nat>, i: nat)
    requires |positions| == |cp|
    ensures forall p <- Own(positions, cp, i) :: p in positions
  {
    if positions != [] {
      OwnSubset(positions[..|positions| - 1], cp[..|cp| - 1], i);
    }
  }

  lemma ValuedSnoc(own: seq<Position>, p: Position, prices: map<string, real>)
    requires p.ticker in prices
    ensures var v := Value(p, prices[p.ticker]);
      && TotalMtm(Valued(own + [p], prices)) == TotalMtm(Valued(own, prices)) + v.mtm
      && BaseIm(Valued(own + [p], prices)) == BaseIm(Valued(own, prices)) + Charge(v)
  {
    hide Charge, Value;
    var v := Value(p, prices[p.ticker]);
    BookNext(own, p, prices);
    TotalMtmAppend(Valued(own, prices), [v]);
    BaseImAppend(Valued(own, prices), [v]);
    assert TotalMtm([v]) == v.mtm && BaseIm([v]) == Charge(v);
  }

  /** Bin `i` holds exactly what the scalar sums make of counterparty `i`'s own
      positions, whatever order the positions of all counterparties are mixed in. */
  lemma {:induction false} BinIsOwnSum(
      positions: seq<Position>, cp: seq<nat>, prices: map<string, real>, n: nat, i: nat)
    requires |positions| == |cp| && PricedBy(positions, prices) && InRange(cp, n) && i < n
    ensures var q, p := Quantities(positions), PricesAt(positions, prices);
      && Bincount(cp, Times(q, p), n)[i] == TotalMtm(Valued(Own(positions, cp, i), prices))
      && Bincount(cp, Times(AbsAll(Times(q, p)), Weights(positions)), n)[i]
         == BaseIm(Valued(Own(positions, cp, i), prices))
  {
    hide Scaled, RiskWeight, Abs;
    var q, p, w := Quantities(positions), PricesAt(positions, prices), Weights(positions);
    var mtm, charge := Times(q, p), Times(AbsAll(Times(q, p)), w);
    if positions != [] {
      var last := |positions| - 1;
      var head := positions[..last];
      BinIsOwnSum(head, cp[..last], prices, n, i);
      assert Quantities(head) == q[..last] && PricesAt(head, prices) == p[..last] && Weights(head) == w[..last];
      assert Times(Quantities(head), PricesAt(head, prices)) == mtm[..last];
      assert Times(AbsAll(Times(Quantities(head), PricesAt(head, prices))), Weights(head)) == charge[..last];
      var x := positions[last];
      var v := Value(x, prices[x.ticker]);
      assert mtm[last] == v.mtm && charge[last] == Charge(v);
      ValuedSnoc(Own(head, cp[..last], i), x, prices);
      if cp[last] != i {
        assert Own(positions, cp, i) == Own(head, cp[..last], i);
      }
    }
  }

  ghost predicate HoldsPriced(positions: seq<Position>, cp: seq<nat>, prices: map<string, real>, n: nat, i: nat) {
    && |positions| == |cp| && PricedBy(positions, prices) && InRange(cp, n) && i < n
    && Own(positions, cp, i) != [] && SinglePortfolio(Own(positions, cp, i))
  }

  lemma VectorMtmIsScalar(positions: seq<Position>, cp: seq<nat>, prices: map<string, real>, n: nat, i: nat)
    requires HoldsPriced(positions, cp, prices, n, i)
    ensures var own := Own(positions, cp, i);
      && PricedBy(own, prices)
      && MtmOf(own, prices).Success?
      && MtmOf(own, prices).value.portfolioId == own[0].portfolioId
      && MtmOf(own, prices).value.total == PortfolioMtms(cp, Quantities(positions), PricesAt(positions, prices), n)[i]
  {
    hide Scaled, Value, Charge;
    OwnSubset(positions, cp, i);
    MtmOfPricedBook(Own(positions, cp, i), prices);
    BinIsOwnSum(positions, cp, prices, n, i);
  }

  lemma VectorInitialMarginIsScalar(
      positions: seq<Position>, cp: seq<nat>, prices: map<string, real>, vix: real, n: nat, i: nat)
    requires HoldsPriced(positions, cp, prices, n, i)
    ensures var q, at := Quantities(positions), PricesAt(positions, prices);
      var im := InitialMargins(cp, q, at, Weights(positions), vix, n);
      var own := Own(positions, cp, i);
      && MtmOf(own, prices).Success?
      && (im.Success? <==> vix > 0.0)
      && InitialMargin(MtmOf(own, prices).value, vix)
         == if vix > 0.0 then Success(im.value[i]) else Failure(BadVix)
  {
    hide Scaled, Value, Charge;
    OwnSubset(positions, cp, i);
    MtmOfPricedBook(Own(positions, cp, i), prices);
    BinIsOwnSum(positions, cp, prices, n, i);
  }

  /** The headline agreement for one day: with every position priced today and at
      the prior close, and counterparty `i` holding at least one of them, entry `i`
      of the vectorised exposure is the scalar exposure of its own book. */
  lemma VectorExposureIsScalar(
      positions: seq<Position>, cp: seq<nat>, today: map<string, real>, prior: map<string, real>,
      vix: real, n: nat, i: nat)
    requires HoldsPriced(positions, cp, today, n, i) && HoldsPriced(positions, cp, prior, n, i) && vix > 0.0
    ensures var q := Quantities(positions);
      var vm := VariationMargins(PortfolioMtms(cp, q, PricesAt(positions, today), n),
                                 PortfolioMtms(cp, q, PricesAt(positions, prior), n));
      var im := InitialMargins(cp, q, PricesAt(positions, today), Weights(positions), vix, n);
      && im.Success? && |im.value| == n
      && Exposure(Own(positions, cp, i), today, prior, vix) == Success(Plus(vm, im.value)[i])
  {
    hide MtmOf, PortfolioMtms, InitialMargin, VixMultiplier;
    VectorMtmIsScalar(positions, cp, today, n, i);
    VectorMtmIsScalar(positions, cp, prior, n, i);
    VectorInitialMarginIsScalar(positions, cp, today, vix, n, i);
  }

  /** A counterparty with no priced position has a zero entry, where the scalar
      engine refuses the empty book: the agreement needs one priced position. */
  lemma {:induction false} NoPositionIsZero(cp: seq<nat>, w: seq<real>, n: nat, i: nat, prices: map<string, real>)
    requires |cp| == |w| && InRange(cp, n) && i < n && i !in cp
    ensures Bincount(cp, w, n)[i] == 0.0 && MtmOf([], prices) == Failure(EmptyBook)
  {
    if cp != [] {
      var last := |cp| - 1;
      assert cp[last] in cp;
      NoPositionIsZero(cp[..last], w[..last], n, i, prices);
    }
  }

  /** The agreement terms an array row encodes: at most one trigger. */
  function RowTerms(threshold: real, mta: real, currency: string, trigger: Option<Rating>, reduced: real): CsaTerms {
    CsaTerms(threshold, mta, currency, if trigger.Some? then [RatingTrigger(trigger.value, reduced)] else [])
  }

  const NO_TRIGGER_RANK: int := 8

  function TriggerRank(trigger: Option<Rating>): int {
    if trigger.Some? then Rank(trigger.value) else NO_TRIGGER_RANK
  }

  function RatingRank(rating: Option<Rating>): int {
    if rating.Some? then Rank(rating.value) else -1
  }

  /** Entry `i` of the threshold, breach, call and return arrays is the scalar
      function on row `i`'s terms, rating, exposure and collateral. */
  lemma VectorBreachIsScalar(
      exposure: seq<real>, held: seq<real>, threshold: seq<real>, mta: seq<real>, rating: seq<Option<Rating>>,
      trigger: seq<Option<Rating>>, reduced: seq<real>, currency: string, i: nat)
    requires |exposure| == |held| == |threshold| == |mta| == |rating| == |trigger| == |reduced| && i < |exposure|
    ensures var n := |exposure|;
      var effective := EffectiveThresholds(
        threshold, seq(n, k requires 0 <= k < n => RatingRank(rating[k])),
        seq(n, k requires 0 <= k < n => TriggerRank(trigger[k])), reduced);
      var terms := RowTerms(threshold[i], mta[i], currency, trigger[i], reduced[i]);
      var b := EvaluateBreaches(exposure, held, effective, mta);
      && effective[i] == EffectiveThreshold(terms, rating[i])
      && EvaluateBreach(exposure[i], held[i], terms, rating[i]) == BreachResult(b.breached[i], b.callDue[i])
      && b.required[i] == RequiredSupport(exposure[i], EffectiveThreshold(terms, rating[i]))
      && ReturnAmounts(held, b.required, mta)[i] == ReturnAmount(held[i], b.required[i], mta[i])
  {
    var terms := RowTerms(threshold[i], mta[i], currency, trigger[i], reduced[i]);
    if trigger[i].Some? && rating[i].Some? {
      var t := RatingTrigger(trigger[i].value, reduced[i]);
      assert terms.triggers == [t];
      assert Fired([t][1..], Rank(rating[i].value)) == [];
      var fired := Fired([t], Rank(rating[i].value));
      assert fired == if Rank(rating[i].value) > Rank(t.belowGrade) then [t.reducedThreshold] else [];
    }
  }
}
