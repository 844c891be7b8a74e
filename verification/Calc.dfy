/** The scalar margin engine: mark-to-market, variation and initial margin,
    the breach test and the intraday materiality gate (src/calc). Money is `real`. */
module Calc {
  import opened Wrappers

  datatype AssetClass = Equity | Etf | Crypto

  datatype Position = Position(
    id: string, portfolioId: string, ticker: string, assetClass: AssetClass, quantity: real)

  datatype PositionMtm = PositionMtm(position: Position, price: real, mtm: real)

  datatype PortfolioMtm = PortfolioMtm(portfolioId: string, positions: seq<PositionMtm>, total: real)

  datatype PricingError =
    | EmptyBook
    | MixedPortfolios
    | NoPrice(tickers: seq<string>)
    | DifferentPortfolios
    | BadVix

  function Abs(x: real): real {
    if x < 0.0 then -x else x
  }

  function Max(a: real, b: real): real {
    if a < b then b else a
  }

  function Min(a: real, b: real): real {
    if b < a then b else a
  }

  /** The product the engine uses everywhere: quantity by price, value by weight,
      base by multiplier. */
  function Scaled(base: real, multiplier: real): real {
    base * multiplier
  }

  // ----- mark-to-market ---------------------------------------------------

  predicate SinglePortfolio(positions: seq<Position>) {
    forall p <- positions :: p.portfolioId == positions[0].portfolioId
  }

  function MissingOne(p: Position, prices: map<string, real>): seq<string> {
    if p.ticker in prices then [] else [p.ticker]
  }

  function MissingTickers(positions: seq<Position>, prices: map<string, real>): seq<string> {
    if positions == [] then [] else MissingOne(positions[0], prices) + MissingTickers(positions[1..], prices)
  }

  function Value(p: Position, price: real): PositionMtm {
    PositionMtm(p, price, Scaled(p.quantity, price))
  }

  function ValuedOne(p: Position, prices: map<string, real>): seq<PositionMtm> {
    if p.ticker in prices then [Value(p, prices[p.ticker])] else []
  }

  /** The valued positions, in book order; unpriced ones are left out. */
  function Valued(positions: seq<Position>, prices: map<string, real>): seq<PositionMtm> {
    if positions == [] then [] else ValuedOne(positions[0], prices) + Valued(positions[1..], prices)
  }

  function TotalMtm(valued: seq<PositionMtm>): real {
    if valued == [] then 0.0 else valued[0].mtm + TotalMtm(valued[1..])
  }

  function MtmOf(positions: seq<Position>, prices: map<string, real>): Result<PortfolioMtm, PricingError> {
    if positions == [] then Failure(EmptyBook)
    else if !SinglePortfolio(positions) then Failure(MixedPortfolios)
    else if MissingTickers(positions, prices) != [] then Failure(NoPrice(MissingTickers(positions, prices)))
    else
      var valued := Valued(positions, prices);
      Success(PortfolioMtm(positions[0].portfolioId, valued, TotalMtm(valued)))
  }

  lemma Associative<T>(a: seq<T>, b: seq<T>, c: seq<T>)
    ensures (a + b) + c == a + (b + c)
  {
  }

  lemma {:induction false} MissingAppend(a: seq<Position>, b: seq<Position>, prices: map<string, real>)
    ensures MissingTickers(a + b, prices) == MissingTickers(a, prices) + MissingTickers(b, prices)
  {
    hide MissingOne;
    if a == [] {
      assert a + b == b;
    } else {
      var p, rest := a[0], a[1..];
      assert (a + b)[0] == p && (a + b)[1..] == rest + b;
      MissingAppend(rest, b, prices);
      Associative(MissingOne(p, prices), MissingTickers(rest, prices), MissingTickers(b, prices));
    }
  }

  lemma {:induction false} ValuedAppend(a: seq<Position>, b: seq<Position>, prices: map<string, real>)
    ensures Valued(a + b, prices) == Valued(a, prices) + Valued(b, prices)
  {
    hide Value, ValuedOne;
    if a == [] {
      assert a + b == b;
    } else {
      var p, rest := a[0], a[1..];
      assert (a + b)[0] == p && (a + b)[1..] == rest + b;
      ValuedAppend(rest, b, prices);
      Associative(ValuedOne(p, prices), Valued(rest, prices), Valued(b, prices));
    }
  }

  /** One position more. */
  lemma BookNext(book: seq<Position>, p: Position, prices: map<string, real>)
    ensures MissingTickers(book + [p], prices) == MissingTickers(book, prices) + MissingOne(p, prices)
    ensures Valued(book + [p], prices) == Valued(book, prices) + ValuedOne(p, prices)
  {
    hide MissingOne, ValuedOne;
    MissingAppend(book, [p], prices);
    ValuedAppend(book, [p], prices);
    assert [p][1..] == [];
    assert MissingTickers([p], prices) == MissingOne(p, prices) + MissingTickers([], prices);
    assert Valued([p], prices) == ValuedOne(p, prices) + Valued([], prices);
  }

  lemma {:induction false} TotalMtmAppend(a: seq<PositionMtm>, b: seq<PositionMtm>)
    ensures TotalMtm(a + b) == TotalMtm(a) + TotalMtm(b)
  {
    if a == [] {
      assert a + b == b;
    } else {
      assert (a + b)[1..] == a[1..] + b;
      TotalMtmAppend(a[1..], b);
    }
  }

  lemma {:induction false} BaseImAppend(a: seq<PositionMtm>, b: seq<PositionMtm>)
    ensures BaseIm(a + b) == BaseIm(a) + BaseIm(b)
  {
    hide Charge;
    if a == [] {
      assert a + b == b;
    } else {
      assert (a + b)[1..] == a[1..] + b;
      BaseImAppend(a[1..], b);
    }
  }

  /** compute_mtm: one pass that values each position or notes its ticker as
      missing, then fails on any missing ticker. */
  method ComputeMtm(positions: seq<Position>, prices: map<string, real>)
    returns (r: Result<PortfolioMtm, PricingError>)
    ensures r == MtmOf(positions, prices)
  {
    if positions == [] {
      return Failure(EmptyBook);
    }
    if !SinglePortfolio(positions) {
      return Failure(MixedPortfolios);
    }
    var valued: seq<PositionMtm>, missing: seq<string> := [], [];
    for i := 0 to |positions|
      invariant valued == Valued(positions[..i], prices)
      invariant missing == MissingTickers(positions[..i], prices)
    {
      var p := positions[i];
      assert positions[..i + 1] == positions[..i] + [p];
      BookNext(positions[..i], p, prices);
      if p.ticker !in prices {
        missing := missing + [p.ticker];
      } else {
        valued := valued + [Value(p, prices[p.ticker])];
      }
    }
    assert positions[..|positions|] == positions;
    if missing != [] {
      return Failure(NoPrice(missing));
    }
    var total := SumMtm(valued);
    r := Success(PortfolioMtm(positions[0].portfolioId, valued, total));
  }

  method SumMtm(valued: seq<PositionMtm>) returns (total: real)
    ensures total == TotalMtm(valued)
  {
    total := 0.0;
    for i := 0 to |valued|
      invariant total == TotalMtm(valued[..i])
    {
      assert valued[..i + 1] == valued[..i] + [valued[i]];
      TotalMtmAppend(valued[..i], [valued[i]]);
      total := total + valued[i].mtm;
    }
    assert valued[..|valued|] == valued;
  }

  // ----- variation and initial margin ---------------------------------------

  function VariationMargin(today: PortfolioMtm, prior: PortfolioMtm): Result<real, PricingError> {
    if today.portfolioId != prior.portfolioId then Failure(DifferentPortfolios)
    else Success(today.total - prior.total)
  }

  const TREASURY_ETFS: set<string> := {"IEF", "TLT", "SHY"}
  const VIX_BASELINE := 20.0
  const VIX_FLOOR := 0.5
  const VIX_CAP := 3.0

  function RiskWeight(ticker: string, assetClass: AssetClass): real {
    if ticker in TREASURY_ETFS then 0.02
    else match assetClass
      case Equity => 0.15
      case Etf => 0.10
      case Crypto => 0.30
  }

  function VixMultiplier(vix: real): Result<real, PricingError> {
    if vix <= 0.0 then Failure(BadVix) else Success(Max(VIX_FLOOR, Min(VIX_CAP, vix / VIX_BASELINE)))
  }

  function Charge(v: PositionMtm): real {
    Scaled(Abs(v.mtm), RiskWeight(v.position.ticker, v.position.assetClass))
  }

  function BaseIm(valued: seq<PositionMtm>): real {
    if valued == [] then 0.0 else Charge(valued[0]) + BaseIm(valued[1..])
  }

  function InitialMargin(mtm: PortfolioMtm, vix: real): Result<real, PricingError> {
    var multiplier :- VixMultiplier(vix);
    Success(Scaled(BaseIm(mtm.positions), multiplier))
  }

  /** A book's exposure: variation margin against the prior close plus initial margin. */
  function Exposure(positions: seq<Position>, prices: map<string, real>, prior: map<string, real>, vix: real)
    : Result<real, PricingError>
  {
    var today :- MtmOf(positions, prices);
    var before :- MtmOf(positions, prior);
    var vm :- VariationMargin(today, before);
    var im :- InitialMargin(today, vix);
    Success(vm + im)
  }

  // ----- the breach test ------------------------------------------------------

  datatype Rating = AAA | AA | A | BBB | BB | B | CCC | D

  function Rank(r: Rating): nat {
    match r
    case AAA => 0 case AA => 1 case A => 2 case BBB => 3 case BB => 4 case B => 5 case CCC => 6 case D => 7
  }

  datatype RatingTrigger = RatingTrigger(belowGrade: Rating, reducedThreshold: real)

  datatype CsaTerms = CsaTerms(threshold: real, mta: real, currency: string, triggers: seq<RatingTrigger>)

  datatype BreachResult = BreachResult(breached: bool, callAmount: real)

  function Fired(triggers: seq<RatingTrigger>, rank: nat): seq<real> {
    if triggers == [] then []
    else
      (if rank > Rank(triggers[0].belowGrade) then [triggers[0].reducedThreshold] else [])
      + Fired(triggers[1..], rank)
  }

  function MinOf(xs: seq<real>): (m: real)
    requires xs != []
    ensures m in xs && forall x <- xs :: m <= x
  {
    assert xs == [xs[0]] + xs[1..];
    if |xs| == 1 then xs[0] else Min(xs[0], MinOf(xs[1..]))
  }

  function EffectiveThreshold(terms: CsaTerms, rating: Option<Rating>): real {
    if rating.None? || terms.triggers == [] then terms.threshold
    else
      var fired := Fired(terms.triggers, Rank(rating.value));
      if fired == [] then terms.threshold else MinOf(fired)
  }

  function RequiredSupport(exposure: real, threshold: real): real {
    Max(0.0, exposure - threshold)
  }

  function EvaluateBreach(exposure: real, held: real, terms: CsaTerms, rating: Option<Rating>): BreachResult {
    var delivery := RequiredSupport(exposure, EffectiveThreshold(terms, rating)) - held;
    if delivery > 0.0 && delivery >= terms.mta then BreachResult(true, delivery) else BreachResult(false, 0.0)
  }

  lemma {:induction false} FiredExactly(triggers: seq<RatingTrigger>, rank: nat, x: real)
    ensures x in Fired(triggers, rank)
       <==> exists t :: t in triggers && rank > Rank(t.belowGrade) && t.reducedThreshold == x
  {
    if triggers != [] {
      FiredExactly(triggers[1..], rank, x);
      var head := triggers[0];
      assert triggers == [head] + triggers[1..];
      if rank > Rank(head.belowGrade) && head.reducedThreshold == x {
        assert head in triggers;
      }
    }
  }

  /** The threshold in force is the lowest reduced threshold among the clauses
      whose grade the rating has fallen below, and the contractual one only
      when no clause fires. */
  lemma EffectiveThresholdIsLowestFired(terms: CsaTerms, rating: Option<Rating>)
    ensures var e := EffectiveThreshold(terms, rating);
      && (forall t <- terms.triggers :: rating.Some? && Rank(rating.value) > Rank(t.belowGrade)
            ==> e <= t.reducedThreshold)
      && ((exists t :: t in terms.triggers && rating.Some? && Rank(rating.value) > Rank(t.belowGrade)
                       && t.reducedThreshold == e)
          || (e == terms.threshold
              && forall t <- terms.triggers :: !(rating.Some? && Rank(rating.value) > Rank(t.belowGrade))))
  {
    if rating.Some? {
      var rank := Rank(rating.value);
      var fired := Fired(terms.triggers, rank);
      forall t | t in terms.triggers && rank > Rank(t.belowGrade)
        ensures t.reducedThreshold in fired
      {
        FiredExactly(terms.triggers, rank, t.reducedThreshold);
      }
      if fired != [] {
        FiredExactly(terms.triggers, rank, MinOf(fired));
      }
    }
  }

  /** Delivering a call cures the breach exactly: with the called amount posted
      there is no shortfall, and with any smaller amount posted the support held
      is still below what the agreement requires. */
  lemma DeliveredCallCuresBreach(exposure: real, held: real, terms: CsaTerms, rating: Option<Rating>, paid: real)
    requires EvaluateBreach(exposure, held, terms, rating).breached
    ensures var call := EvaluateBreach(exposure, held, terms, rating).callAmount;
      var required := RequiredSupport(exposure, EffectiveThreshold(terms, rating));
      && call >= terms.mta && call > 0.0
      && !EvaluateBreach(exposure, held + call, terms, rating).breached
      && (held + paid >= required <==> paid >= call)
  {
  }

  // ----- the materiality gate ---------------------------------------------------

  datatype PriceMove = PriceMove(ticker: string, from: real, to: real)

  datatype EventImpact = EventImpact(mtmChange: real, imChange: real, exposureChange: real)

  /** The dictionaries built from a move list: a repeated ticker keeps its last move. */
  function FromPrices(moves: seq<PriceMove>): map<string, real> {
    if moves == [] then map[]
    else FromPrices(moves[..|moves| - 1])[moves[|moves| - 1].ticker := moves[|moves| - 1].from]
  }

  function ToPrices(moves: seq<PriceMove>): (m: map<string, real>)
    ensures m.Keys == FromPrices(moves).Keys
  {
    if moves == [] then map[]
    else ToPrices(moves[..|moves| - 1])[moves[|moves| - 1].ticker := moves[|moves| - 1].to]
  }

  function Affected(positions: seq<Position>, tickers: set<string>): seq<Position> {
    if positions == [] then []
    else (if positions[0].ticker in tickers then [positions[0]] else []) + Affected(positions[1..], tickers)
  }

  function EventExposureImpact(positions: seq<Position>, moves: seq<PriceMove>, vix: real)
    : Result<EventImpact, PricingError>
  {
    var affected := Affected(positions, ToPrices(moves).Keys);
    if affected == [] then Success(EventImpact(0.0, 0.0, 0.0))
    else
      var before :- MtmOf(affected, FromPrices(moves));
      var after :- MtmOf(affected, ToPrices(moves));
      var imAfter :- InitialMargin(after, vix);
      var imBefore :- InitialMargin(before, vix);
      var mtmChange := after.total - before.total;
      var imChange := imAfter - imBefore;
      Success(EventImpact(mtmChange, imChange, mtmChange + imChange))
  }

  predicate IsMaterial(exposureChange: real, mta: real) {
    exposureChange > mta
  }

  ghost predicate PricedBy(positions: seq<Position>, prices: map<string, real>) {
    forall p <- positions :: p.ticker in prices
  }

  lemma {:induction false} PricedHasNoGaps(positions: seq<Position>, prices: map<string, real>)
    ensures MissingTickers(positions, prices) == [] <==> PricedBy(positions, prices)
  {
    if positions != [] {
      PricedHasNoGaps(positions[1..], prices);
      assert positions == [positions[0]] + positions[1..];
    }
  }

  lemma {:induction false} AffectedSubset(positions: seq<Position>, tickers: set<string>)
    ensures forall p <- Affected(positions, tickers) :: p in positions && p.ticker in tickers
  {
    if positions != [] {
      AffectedSubset(positions[1..], tickers);
    }
  }

  lemma TotalsOfCons(p: Position, rest: seq<Position>, prices: map<string, real>)
    requires p.ticker in prices
    ensures var one := Value(p, prices[p.ticker]);
      && TotalMtm(Valued([p] + rest, prices)) == one.mtm + TotalMtm(Valued(rest, prices))
      && BaseIm(Valued([p] + rest, prices)) == Charge(one) + BaseIm(Valued(rest, prices))
  {
    var all := Valued([p] + rest, prices);
    assert ([p] + rest)[1..] == rest;
    assert all == ValuedOne(p, prices) + Valued(rest, prices);
    assert all[1..] == Valued(rest, prices);
  }

  /** Two books headed by one position at one price differ from their tails by the same amounts. */
  lemma SameHeadSameStep(p: Position, rest: seq<Position>, prices: map<string, real>,
                         rest': seq<Position>, prices': map<string, real>)
    requires p.ticker in prices && p.ticker in prices' && prices[p.ticker] == prices'[p.ticker]
    ensures TotalMtm(Valued([p] + rest, prices)) - TotalMtm(Valued(rest, prices))
         == TotalMtm(Valued([p] + rest', prices')) - TotalMtm(Valued(rest', prices'))
    ensures BaseIm(Valued([p] + rest, prices)) - BaseIm(Valued(rest, prices))
         == BaseIm(Valued([p] + rest', prices')) - BaseIm(Valued(rest', prices'))
  {
    hide Charge, Value, Valued, TotalMtm, BaseIm;
    TotalsOfCons(p, rest, prices);
    TotalsOfCons(p, rest', prices');
  }

  /** Summed over the whole book or over the affected positions alone, the
      change in value and in charge is the same when only `tickers` move. */
  lemma {:induction false} UnmovedPositionsCancel(
      positions: seq<Position>, tickers: set<string>,
      before: map<string, real>, after: map<string, real>, from: map<string, real>, to: map<string, real>)
    requires tickers == from.Keys == to.Keys
    requires PricedBy(positions, before) && PricedBy(positions, after)
    requires forall t <- tickers :: t in before && before[t] == from[t]
    requires forall t <- tickers :: t in after && after[t] == to[t]
    requires forall t | t in before && t !in tickers :: t in after && after[t] == before[t]
    ensures var hit := Affected(positions, tickers);
      && TotalMtm(Valued(positions, after)) - TotalMtm(Valued(positions, before))
         == TotalMtm(Valued(hit, to)) - TotalMtm(Valued(hit, from))
      && BaseIm(Valued(positions, after)) - BaseIm(Valued(positions, before))
         == BaseIm(Valued(hit, to)) - BaseIm(Valued(hit, from))
  {
    hide Charge, Value;
    if positions != [] {
      var p, rest := positions[0], positions[1..];
      assert p in positions;
      UnmovedPositionsCancel(rest, tickers, before, after, from, to);
      assert positions == [p] + rest;
      var tail := Affected(rest, tickers);
      if p.ticker in tickers {
        assert Affected(positions, tickers) == [p] + tail;
        SameHeadSameStep(p, rest, before, tail, from);
        SameHeadSameStep(p, rest, after, tail, to);
      } else {
        assert Affected(positions, tickers) == tail;
        SameHeadSameStep(p, rest, before, rest, after);
      }
    }
  }

  lemma ScaledDifference(a: real, b: real, c: real, d: real, k: real)
    requires a - b == c - d
    ensures Scaled(a, k) - Scaled(b, k) == Scaled(c, k) - Scaled(d, k)
  {
    assert (a - b) * k == (c - d) * k;
  }

  lemma MtmOfPricedBook(positions: seq<Position>, prices: map<string, real>)
    requires positions != [] && SinglePortfolio(positions) && PricedBy(positions, prices)
    ensures MtmOf(positions, prices)
         == Success(PortfolioMtm(
           positions[0].portfolioId, Valued(positions, prices), TotalMtm(Valued(positions, prices))))
  {
    PricedHasNoGaps(positions, prices);
  }

  lemma ExposureOfPricedBook(positions: seq<Position>, prices: map<string, real>, prior: map<string, real>, vix: real)
    requires positions != [] && SinglePortfolio(positions) && vix > 0.0
    requires PricedBy(positions, prices) && PricedBy(positions, prior)
    ensures Exposure(positions, prices, prior, vix)
         == Success(TotalMtm(Valued(positions, prices)) - TotalMtm(Valued(positions, prior))
                    + Scaled(BaseIm(Valued(positions, prices)), VixMultiplier(vix).value))
  {
    hide Value, Charge, MtmOf, Scaled;
    MtmOfPricedBook(positions, prices);
    MtmOfPricedBook(positions, prior);
  }

  lemma ImpactOfPricedBook(positions: seq<Position>, moves: seq<PriceMove>, vix: real)
    requires SinglePortfolio(positions) && vix > 0.0
    ensures var hit := Affected(positions, ToPrices(moves).Keys);
      var before, after := Valued(hit, FromPrices(moves)), Valued(hit, ToPrices(moves));
      var mtmChange := TotalMtm(after) - TotalMtm(before);
      var multiplier := VixMultiplier(vix).value;
      var imChange := Scaled(BaseIm(after), multiplier) - Scaled(BaseIm(before), multiplier);
      EventExposureImpact(positions, moves, vix) == Success(EventImpact(mtmChange, imChange, mtmChange + imChange))
  {
    hide Value, Charge, MtmOf, Scaled;
    var hit := Affected(positions, ToPrices(moves).Keys);
    AffectedSubset(positions, ToPrices(moves).Keys);
    if hit != [] {
      assert hit[0] in hit;
      MtmOfPricedBook(hit, FromPrices(moves));
      MtmOfPricedBook(hit, ToPrices(moves));
    }
  }

  /** The gate's figure, computed over the moved tickers only, is the change in
      the whole book's exposure when exactly those prices move. `prices` prices
      the unmoved tickers and is the same before and after. */
  lemma EventImpactIsExposureChange(
      positions: seq<Position>, moves: seq<PriceMove>, vix: real, prices: map<string, real>, prior: map<string, real>)
    requires positions != [] && SinglePortfolio(positions) && vix > 0.0
    requires PricedBy(positions, prices + FromPrices(moves)) && PricedBy(positions, prior)
    ensures var before := Exposure(positions, prices + FromPrices(moves), prior, vix);
      var after := Exposure(positions, prices + ToPrices(moves), prior, vix);
      var impact := EventExposureImpact(positions, moves, vix);
      && before.Success? && after.Success? && impact.Success?
      && impact.value.exposureChange == after.value - before.value
  {
    hide Exposure, EventExposureImpact, Value, Charge, Scaled;
    var from, to := FromPrices(moves), ToPrices(moves);
    var before, after := prices + from, prices + to;
    ExposureOfPricedBook(positions, before, prior, vix);
    ExposureOfPricedBook(positions, after, prior, vix);
    ImpactOfPricedBook(positions, moves, vix);
    UnmovedPositionsCancel(positions, from.Keys, before, after, from, to);
    var hit := Affected(positions, to.Keys);
    ScaledDifference(BaseIm(Valued(positions, after)), BaseIm(Valued(positions, before)),
                     BaseIm(Valued(hit, to)), BaseIm(Valued(hit, from)), VixMultiplier(vix).value);
  }
}
