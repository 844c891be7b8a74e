/** Cheapest-to-deliver collateral selection (src/calc/collateral_optimizer.py). */
module CollateralOptimizer {
  import opened Calc
  import opened StableSort

  const CREDIT_EPSILON: real := 0.000001

  datatype Item = Item(kind: string, available: real)

  datatype Proposed = Proposed(kind: string, value: real, haircut: real, credit: real)

  datatype Optimization = Optimization(proposed: seq<Proposed>, credit: real, fullyFunded: bool)

  // The two look-ups disagree on a type without a haircut: the ranking treats it
  // as worthless, the selection as taking no haircut at all.

  function RankingHaircut(haircuts: map<string, real>, kind: string): real {
    if kind in haircuts then haircuts[kind] else 1.0
  }

  function AppliedHaircut(haircuts: map<string, real>, kind: string): real {
    if kind in haircuts then haircuts[kind] else 0.0
  }

  function Rate(haircuts: map<string, real>, item: Item): real {
    1.0 - AppliedHaircut(haircuts, item.kind)
  }

  predicate Usable(haircuts: map<string, real>, item: Item) {
    Rate(haircuts, item) > 0.0 && item.available > 0.0
  }

  // ----- selections over the inventory -----------------------------------------

  /** An item with the raw value taken from it. */
  datatype Holding = Holding(item: Item, raw: real)

  /** The eligible items, each with the raw value `x` takes from it, keyed for ranking. */
  function EligibleHoldings(eligible: seq<string>, haircuts: map<string, real>, inventory: seq<Item>, x: seq<real>)
    : seq<Keyed<Holding>>
    requires |inventory| == |x|
  {
    if inventory == [] then []
    else
      var item := inventory[0];
      (if item.kind in eligible then [Keyed(RankingHaircut(haircuts, item.kind), Holding(item, x[0]))] else [])
      + EligibleHoldings(eligible, haircuts, inventory[1..], x[1..])
  }

  function Items(hs: seq<Keyed<Holding>>): seq<Item> {
    seq(|hs|, i requires 0 <= i < |hs| => hs[i].value.item)
  }

  function Raws(hs: seq<Keyed<Holding>>): seq<real> {
    seq(|hs|, i requires 0 <= i < |hs| => hs[i].value.raw)
  }

  function Zeros(n: nat): seq<real> {
    seq(n, _ => 0.0)
  }

  /** The order the loop walks: eligible items, lowest ranking haircut first. */
  function Ranked(eligible: seq<string>, haircuts: map<string, real>, inventory: seq<Item>): seq<Item> {
    Items(Sort(EligibleHoldings(eligible, haircuts, inventory, Zeros(|inventory|))))
  }

  function Total(x: seq<real>): real {
    if x == [] then 0.0 else x[0] + Total(x[1..])
  }

  function Credit(haircuts: map<string, real>, items: seq<Item>, x: seq<real>): real
    requires |items| == |x|
  {
    if items == [] then 0.0
    else Scaled(x[0], Rate(haircuts, items[0])) + Credit(haircuts, items[1..], x[1..])
  }

  /** Within the available inventory: nothing negative, nothing above what is there. */
  ghost predicate Within(items: seq<Item>, x: seq<real>) {
    |items| == |x| && forall i :: 0 <= i < |x| ==> 0.0 <= x[i] <= Max(0.0, items[i].available)
  }

  /** A selection from the inventory that takes nothing ineligible. */
  ghost predicate Selection(eligible: seq<string>, inventory: seq<Item>, x: seq<real>) {
    Within(inventory, x) && forall i :: 0 <= i < |x| && inventory[i].kind !in eligible ==> x[i] == 0.0
  }

  // ----- the greedy selection ----------------------------------------------------

  /** The raw value taken from each ranked item while `remaining` credit is wanted. */
  function Posted(haircuts: map<string, real>, ranked: seq<Item>, remaining: real): (g: seq<real>)
    ensures |g| == |ranked|
  {
    if ranked == [] then []
    else if remaining <= CREDIT_EPSILON then Zeros(|ranked|)
    else if !Usable(haircuts, ranked[0]) then [0.0] + Posted(haircuts, ranked[1..], remaining)
    else
      var rate := Rate(haircuts, ranked[0]);
      var raw := Min(ranked[0].available, remaining / rate);
      [raw] + Posted(haircuts, ranked[1..], remaining - Scaled(raw, rate))
  }

  /** The proposal list: one line per item actually used, in ranked order. */
  function Lines(haircuts: map<string, real>, ranked: seq<Item>, remaining: real): seq<Proposed> {
    if ranked == [] || remaining <= CREDIT_EPSILON then []
    else if !Usable(haircuts, ranked[0]) then Lines(haircuts, ranked[1..], remaining)
    else
      var rate := Rate(haircuts, ranked[0]);
      var raw := Min(ranked[0].available, remaining / rate);
      [Proposed(ranked[0].kind, raw, AppliedHaircut(haircuts, ranked[0].kind), Scaled(raw, rate))]
      + Lines(haircuts, ranked[1..], remaining - Scaled(raw, rate))
  }

  function LineCredit(lines: seq<Proposed>): real {
    if lines == [] then 0.0 else lines[0].credit + LineCredit(lines[1..])
  }

  function LineRaw(lines: seq<Proposed>): real {
    if lines == [] then 0.0 else lines[0].value + LineRaw(lines[1..])
  }

  lemma {:induction false} LineCreditAppend(a: seq<Proposed>, b: seq<Proposed>)
    ensures LineCredit(a + b) == LineCredit(a) + LineCredit(b)
  {
    if a == [] {
      assert a + b == b;
    } else {
      assert (a + b)[1..] == a[1..] + b;
      LineCreditAppend(a[1..], b);
    }
  }

  lemma {:induction false} ZerosAddNothing(haircuts: map<string, real>, items: seq<Item>)
    ensures Total(Zeros(|items|)) == 0.0 && Credit(haircuts, items, Zeros(|items|)) == 0.0
  {
    if items != [] {
      assert Zeros(|items|)[1..] == Zeros(|items[1..]|);
      ZerosAddNothing(haircuts, items[1..]);
    }
  }

  lemma SelectionCons(haircuts: map<string, real>, item: Item, rest: seq<Item>, raw: real, g: seq<real>)
    requires |rest| == |g|
    ensures Total([raw] + g) == raw + Total(g)
    ensures Credit(haircuts, [item] + rest, [raw] + g) == Scaled(raw, Rate(haircuts, item)) + Credit(haircuts, rest, g)
  {
    hide Scaled;
    assert ([raw] + g)[1..] == g && ([item] + rest)[1..] == rest;
  }

  lemma LinesCons(line: Proposed, lines: seq<Proposed>)
    ensures LineRaw([line] + lines) == line.value + LineRaw(lines)
    ensures LineCredit([line] + lines) == line.credit + LineCredit(lines)
  {
    assert ([line] + lines)[1..] == lines;
  }

  /** The lines and the posted amounts are the same selection. */
  lemma {:induction false} LinesArePosted(haircuts: map<string, real>, ranked: seq<Item>, remaining: real)
    ensures var lines := Lines(haircuts, ranked, remaining); var g := Posted(haircuts, ranked, remaining);
      LineRaw(lines) == Total(g) && LineCredit(lines) == Credit(haircuts, ranked, g)
  {
    hide Scaled, Min, Total, Credit, LineRaw, LineCredit, Zeros;
    if ranked == [] {
      NothingPosted(haircuts);
    } else if remaining <= CREDIT_EPSILON {
      ZerosAddNothing(haircuts, ranked);
      NothingPosted(haircuts);
    } else {
      var item, rest := ranked[0], ranked[1..];
      assert ranked == [item] + rest;
      if Usable(haircuts, item) {
        var rate := Rate(haircuts, item);
        var raw := Min(item.available, remaining / rate);
        var more := remaining - Scaled(raw, rate);
        LinesArePosted(haircuts, rest, more);
        SelectionCons(haircuts, item, rest, raw, Posted(haircuts, rest, more));
        var line := Proposed(item.kind, raw, AppliedHaircut(haircuts, item.kind), Scaled(raw, rate));
        LinesCons(line, Lines(haircuts, rest, more));
      } else {
        LinesArePosted(haircuts, rest, remaining);
        SelectionCons(haircuts, item, rest, 0.0, Posted(haircuts, rest, remaining));
        NothingIsWorthNothing(Rate(haircuts, item));
      }
    }
  }

  lemma NothingPosted(haircuts: map<string, real>)
    ensures Total([]) == 0.0 && Credit(haircuts, [], []) == 0.0 && LineRaw([]) == 0.0 && LineCredit([]) == 0.0
  {
  }

  lemma NothingIsWorthNothing(rate: real)
    ensures Scaled(0.0, rate) == 0.0
  {
  }

  /** optimize_collateral. */
  method OptimizeCollateral(required: real, eligible: seq<string>, haircuts: map<string, real>, inventory: seq<Item>)
    returns (r: Optimization)
    ensures required <= 0.0 ==> r == Optimization([], 0.0, true)
    ensures required > 0.0 ==>
      var ranked := Ranked(eligible, haircuts, inventory);
      && r.proposed == Lines(haircuts, ranked, required)
      && r.credit == Credit(haircuts, ranked, Posted(haircuts, ranked, required))
      && r.fullyFunded == (required - r.credit <= CREDIT_EPSILON)
  {
    hide Scaled, Min, Ranked, Total, Credit, Posted, LineCredit;
    if required <= 0.0 {
      return Optimization([], 0.0, true);
    }
    var ranked := Ranked(eligible, haircuts, inventory);
    NothingPosted(haircuts);
    var proposed: seq<Proposed> := [];
    var remaining := required;
    for k := 0 to |ranked|
      invariant Lines(haircuts, ranked, required) == proposed + Lines(haircuts, ranked[k..], remaining)
      invariant remaining == required - LineCredit(proposed)
    {
      if remaining <= CREDIT_EPSILON {
        break;
      }
      var item := ranked[k];
      assert ranked[k..][0] == item && ranked[k..][1..] == ranked[k + 1..];
      if !Usable(haircuts, item) {
        continue;
      }
      var haircut := AppliedHaircut(haircuts, item.kind);
      var raw := Min(item.available, remaining / (1.0 - haircut));
      var line := Proposed(item.kind, raw, haircut, Scaled(raw, 1.0 - haircut));
      LineCreditAppend(proposed, [line]);
      LinesCons(line, []);
      assert [line] + [] == [line];
      proposed := proposed + [line];
      remaining := remaining - line.credit;
    }
    LinesArePosted(haircuts, ranked, required);
    r := Optimization(proposed, LineCredit(proposed), remaining <= CREDIT_EPSILON);
  }

  // ----- what one item contributes -------------------------------------------------

  lemma TakeOne(haircuts: map<string, real>, item: Item, remaining: real)
    requires Usable(haircuts, item) && remaining > 0.0
    ensures var rate := Rate(haircuts, item);
      var raw := Min(item.available, remaining / rate);
      && 0.0 < raw <= item.available
      && 0.0 < Scaled(raw, rate) <= remaining
      && Scaled(raw, rate) <= Scaled(item.available, rate)
      && (raw < item.available ==> Scaled(raw, rate) == remaining)
  {
    var rate := Rate(haircuts, item);
    var q := remaining / rate;
    assert q * rate == remaining;
    assert q > 0.0;
    var raw := Min(item.available, q);
    assert raw * rate <= q * rate by { MulMono(raw, q, rate); }
    MulMono(raw, item.available, rate);
    assert Scaled(raw, rate) == raw * rate && Scaled(item.available, rate) == item.available * rate;
  }

  lemma MulMono(a: real, b: real, k: real)
    requires a <= b && k > 0.0
    ensures a * k <= b * k
  {
  }

  /** The credit the whole usable part of the list is worth. */
  function UsableCredit(haircuts: map<string, real>, items: seq<Item>): real {
    if items == [] then 0.0
    else
      (if Usable(haircuts, items[0]) then Scaled(items[0].available, Rate(haircuts, items[0])) else 0.0)
      + UsableCredit(haircuts, items[1..])
  }

  lemma {:induction false} UsableCreditNonNegative(haircuts: map<string, real>, items: seq<Item>)
    ensures UsableCredit(haircuts, items) >= 0.0
  {
    if items != [] {
      UsableCreditNonNegative(haircuts, items[1..]);
      if Usable(haircuts, items[0]) {
        MulMono(0.0, items[0].available, Rate(haircuts, items[0]));
      }
    }
  }

  /** The greedy walk stays within the inventory, never passes the amount wanted,
      and covers it (to the epsilon) exactly when the usable inventory can. */
  lemma {:induction false} PostedCovers(haircuts: map<string, real>, ranked: seq<Item>, remaining: real)
    requires remaining >= 0.0
    ensures var g := Posted(haircuts, ranked, remaining); var credit := Credit(haircuts, ranked, g);
      && Within(ranked, g)
      && 0.0 <= credit <= remaining
      && (remaining - credit <= CREDIT_EPSILON <==> UsableCredit(haircuts, ranked) >= remaining - CREDIT_EPSILON)
  {
    var g := Posted(haircuts, ranked, remaining);
    UsableCreditNonNegative(haircuts, ranked);
    if ranked == [] {
    } else if remaining <= CREDIT_EPSILON {
      ZerosAddNothing(haircuts, ranked);
    } else if !Usable(haircuts, ranked[0]) {
      PostedCovers(haircuts, ranked[1..], remaining);
      assert g[1..] == Posted(haircuts, ranked[1..], remaining);
    } else {
      TakeOne(haircuts, ranked[0], remaining);
      var rate := Rate(haircuts, ranked[0]);
      var rest := remaining - Scaled(Min(ranked[0].available, remaining / rate), rate);
      PostedCovers(haircuts, ranked[1..], rest);
      assert g[1..] == Posted(haircuts, ranked[1..], rest);
      UsableCreditNonNegative(haircuts, ranked[1..]);
    }
  }

  // ----- optimality: a price for credit that no selection can beat ---------------------

  predicate RankedByRate(haircuts: map<string, real>, ranked: seq<Item>) {
    forall i, j | 0 <= i < j < |ranked| && Usable(haircuts, ranked[i]) && Usable(haircuts, ranked[j]) ::
      Rate(haircuts, ranked[i]) >= Rate(haircuts, ranked[j])
  }

  ghost predicate AllZero(g: seq<real>) {
    forall i :: 0 <= i < |g| ==> g[i] == 0.0
  }

  /** `pivot` separates the items: better ones are used up, worse ones untouched. */
  ghost predicate Pivots(haircuts: map<string, real>, items: seq<Item>, g: seq<real>, pivot: real) {
    && |g| == |items| && pivot > 0.0
    && (forall i :: 0 <= i < |g| && Rate(haircuts, items[i]) > pivot ==> g[i] == Max(0.0, items[i].available))
    && (forall i :: 0 <= i < |g| && Rate(haircuts, items[i]) < pivot ==> g[i] == 0.0)
  }

  /** `pivot` is the rate of a usable item, so no item ranked before it is worse. */
  ghost predicate UsableRate(haircuts: map<string, real>, items: seq<Item>, pivot: real) {
    exists i :: 0 <= i < |items| && Usable(haircuts, items[i]) && Rate(haircuts, items[i]) == pivot
  }

  lemma PivotsCons(haircuts: map<string, real>, item: Item, rest: seq<Item>, g: real, h: seq<real>, pivot: real)
    requires Pivots(haircuts, rest, h, pivot)
    requires Rate(haircuts, item) > pivot ==> g == Max(0.0, item.available)
    requires Rate(haircuts, item) < pivot ==> g == 0.0
    ensures Pivots(haircuts, [item] + rest, [g] + h, pivot)
  {
  }

  lemma UsableRateCons(haircuts: map<string, real>, item: Item, rest: seq<Item>, pivot: real)
    requires RankedByRate(haircuts, [item] + rest)
    ensures RankedByRate(haircuts, rest)
    ensures UsableRate(haircuts, rest, pivot) ==>
      UsableRate(haircuts, [item] + rest, pivot) && (Usable(haircuts, item) ==> Rate(haircuts, item) >= pivot)
    ensures Usable(haircuts, item) ==> UsableRate(haircuts, [item] + rest, Rate(haircuts, item))
    ensures Usable(haircuts, item) ==> forall k :: 0 <= k < |rest| && Usable(haircuts, rest[k]) ==>
      Rate(haircuts, rest[k]) <= Rate(haircuts, item)
  {
    var all := [item] + rest;
    assert all[0] == item && forall k :: 0 <= k < |rest| ==> rest[k] == all[k + 1];
    if UsableRate(haircuts, rest, pivot) {
      var i :| 0 <= i < |rest| && Usable(haircuts, rest[i]) && Rate(haircuts, rest[i]) == pivot;
      assert Usable(haircuts, all[i + 1]);
    }
  }

  /** Nothing taken from the rest: the item at hand is the last one used. */
  lemma PivotsLast(haircuts: map<string, real>, item: Item, rest: seq<Item>, g: real, h: seq<real>)
    requires Usable(haircuts, item) && AllZero(h) && |h| == |rest|
    requires forall k :: 0 <= k < |rest| && Usable(haircuts, rest[k]) ==>
      Rate(haircuts, rest[k]) <= Rate(haircuts, item)
    ensures Pivots(haircuts, [item] + rest, [g] + h, Rate(haircuts, item))
  {
  }

  lemma {:induction false} FindPivot(haircuts: map<string, real>, ranked: seq<Item>, remaining: real)
    returns (pivot: real)
    requires remaining >= 0.0 && RankedByRate(haircuts, ranked)
    ensures var g := Posted(haircuts, ranked, remaining);
      AllZero(g) || (Pivots(haircuts, ranked, g, pivot) && UsableRate(haircuts, ranked, pivot))
  {
    hide Scaled, Pivots, UsableRate, RankedByRate;
    pivot := 0.0;
    if ranked != [] && remaining > CREDIT_EPSILON {
      var item, rest := ranked[0], ranked[1..];
      assert ranked == [item] + rest;
      UsableRateCons(haircuts, item, rest, pivot);
      if !Usable(haircuts, item) {
        pivot := FindPivot(haircuts, rest, remaining);
        if !AllZero(Posted(haircuts, rest, remaining)) {
          UsableRateCons(haircuts, item, rest, pivot);
          PivotPositive(haircuts, rest, pivot);
          PivotsCons(haircuts, item, rest, 0.0, Posted(haircuts, rest, remaining), pivot);
        }
      } else {
        TakeOne(haircuts, item, remaining);
        var raw := Min(item.available, remaining / Rate(haircuts, item));
        var left := remaining - Scaled(raw, Rate(haircuts, item));
        var h := Posted(haircuts, rest, left);
        pivot := FindPivot(haircuts, rest, left);
        if AllZero(h) {
          pivot := Rate(haircuts, item);
          PivotsLast(haircuts, item, rest, raw, h);
        } else {
          UsableRateCons(haircuts, item, rest, pivot);
          PivotsCons(haircuts, item, rest, raw, h, pivot);
        }
      }
    }
  }

  lemma PivotPositive(haircuts: map<string, real>, items: seq<Item>, pivot: real)
    requires UsableRate(haircuts, items, pivot)
    ensures pivot > 0.0
  {
  }

  lemma TermBound(pivot: real, rate: real, g: real, x: real, cap: real)
    requires pivot > 0.0 && 0.0 <= x <= cap && 0.0 <= g <= cap
    requires (rate > pivot ==> g == cap) && (rate < pivot ==> g == 0.0)
    ensures Scaled(x, pivot) - Scaled(g, pivot) >= Scaled(x, rate) - Scaled(g, rate)
  {
    assert (x - g) * (pivot - rate) >= 0.0;
  }

  lemma ScaledSum(a: real, b: real, k: real)
    ensures Scaled(a + b, k) == Scaled(a, k) + Scaled(b, k)
  {
  }

  lemma {:induction false} PivotBound(
      haircuts: map<string, real>, items: seq<Item>, g: seq<real>, x: seq<real>, pivot: real)
    requires Within(items, x) && Within(items, g) && Pivots(haircuts, items, g, pivot)
    ensures Scaled(Total(x), pivot) - Scaled(Total(g), pivot) >= Credit(haircuts, items, x) - Credit(haircuts, items, g)
  {
    hide Scaled;
    if items != [] {
      assert Within(items[1..], x[1..]) && Within(items[1..], g[1..]);
      assert forall i :: 0 <= i < |items[1..]| ==> items[1..][i] == items[i + 1] && g[1..][i] == g[i + 1];
      PivotBound(haircuts, items[1..], g[1..], x[1..], pivot);
      TermBound(pivot, Rate(haircuts, items[0]), g[0], x[0], Max(0.0, items[0].available));
      ScaledSum(x[0], Total(x[1..]), pivot);
      ScaledSum(g[0], Total(g[1..]), pivot);
    }
  }

  lemma {:induction false} TotalNonNegative(x: seq<real>)
    requires forall i :: 0 <= i < |x| ==> x[i] >= 0.0
    ensures Total(x) >= 0.0 && (AllZero(x) ==> Total(x) == 0.0)
  {
    if x != [] {
      TotalNonNegative(x[1..]);
    }
  }

  lemma ScaledReflects(a: real, b: real, k: real)
    requires k > 0.0 && Scaled(a, k) >= Scaled(b, k)
    ensures a >= b
  {
    assert (a - b) * k >= 0.0;
  }

  lemma PostedIsCheapest(haircuts: map<string, real>, ranked: seq<Item>, required: real, x: seq<real>)
    requires required >= 0.0 && RankedByRate(haircuts, ranked) && Within(ranked, x)
    requires Credit(haircuts, ranked, x) >= Credit(haircuts, ranked, Posted(haircuts, ranked, required))
    ensures Total(x) >= Total(Posted(haircuts, ranked, required))
  {
    hide Scaled, Posted, Total, Credit;
    var g := Posted(haircuts, ranked, required);
    PostedCovers(haircuts, ranked, required);
    TotalNonNegative(x);
    TotalNonNegative(g);
    var pivot := FindPivot(haircuts, ranked, required);
    if !AllZero(g) {
      PivotBound(haircuts, ranked, g, x, pivot);
      ScaledReflects(Total(x), Total(g), pivot);
    }
  }

  // ----- from the ranked list back to the inventory ------------------------------------

  ghost predicate KeyedByItem(haircuts: map<string, real>, hs: seq<Keyed<Holding>>) {
    forall h <- hs :: h.key == RankingHaircut(haircuts, h.value.item.kind)
  }

  function RawSum(hs: seq<Keyed<Holding>>): real {
    if hs == [] then 0.0 else RawSum(hs[..|hs| - 1]) + hs[|hs| - 1].value.raw
  }

  function CreditSum(haircuts: map<string, real>, hs: seq<Keyed<Holding>>): real {
    if hs == [] then 0.0
    else
      var h := hs[|hs| - 1].value;
      CreditSum(haircuts, hs[..|hs| - 1]) + Scaled(h.raw, Rate(haircuts, h.item))
  }

  lemma {:induction false} InsertSums(haircuts: map<string, real>, hs: seq<Keyed<Holding>>, h: Keyed<Holding>)
    ensures RawSum(Insert(hs, h)) == RawSum(hs) + h.value.raw
    ensures CreditSum(haircuts, Insert(hs, h))
         == CreditSum(haircuts, hs) + Scaled(h.value.raw, Rate(haircuts, h.value.item))
  {
    hide Scaled;
    if hs == [] || hs[|hs| - 1].key <= h.key {
      assert (hs + [h])[..|hs|] == hs;
    } else {
      var r := Insert(hs[..|hs| - 1], h);
      InsertSums(haircuts, hs[..|hs| - 1], h);
      assert (r + [hs[|hs| - 1]])[..|r|] == r;
    }
  }

  lemma {:induction false} SortSums(haircuts: map<string, real>, hs: seq<Keyed<Holding>>)
    ensures RawSum(Sort(hs)) == RawSum(hs) && CreditSum(haircuts, Sort(hs)) == CreditSum(haircuts, hs)
  {
    hide Scaled;
    if hs != [] {
      SortSums(haircuts, hs[..|hs| - 1]);
      InsertSums(haircuts, Sort(hs[..|hs| - 1]), hs[|hs| - 1]);
    }
  }

  /** Two lists with the same items in the same order are sorted alike, whatever is taken from them. */
  lemma {:induction false} InsertSameItems(
      haircuts: map<string, real>, a: seq<Keyed<Holding>>, b: seq<Keyed<Holding>>, x: Keyed<Holding>, y: Keyed<Holding>)
    requires KeyedByItem(haircuts, a + [x]) && KeyedByItem(haircuts, b + [y])
    requires Items(a) == Items(b) && x.value.item == y.value.item
    ensures Items(Insert(a, x)) == Items(Insert(b, y))
    ensures KeyedByItem(haircuts, Insert(a, x)) && KeyedByItem(haircuts, Insert(b, y))
  {
    assert |a| == |Items(a)| == |Items(b)| == |b|;
    KeyedSnoc(haircuts, a, x);
    KeyedSnoc(haircuts, b, y);
    if a != [] {
      var last := |a| - 1;
      assert a[last].value.item == Items(a)[last] == Items(b)[last] == b[last].value.item;
      ItemsPrefix(a, last);
      ItemsPrefix(b, last);
      KeyedSnoc(haircuts, a[..last], a[last]);
      KeyedSnoc(haircuts, b[..last], b[last]);
      assert a == a[..last] + [a[last]] && b == b[..last] + [b[last]];
      if a[last].key > x.key {
        KeyedSnoc(haircuts, a[..last], x);
        KeyedSnoc(haircuts, b[..last], y);
        InsertSameItems(haircuts, a[..last], b[..last], x, y);
        hide Items, KeyedByItem, RankingHaircut;
        var p, q := Insert(a[..last], x), Insert(b[..last], y);
        KeyedSnoc(haircuts, p, a[last]);
        KeyedSnoc(haircuts, q, b[last]);
        ItemsSnoc(p, a[last]);
        ItemsSnoc(q, b[last]);
      } else {
        ItemsSnoc(a, x);
        ItemsSnoc(b, y);
      }
    } else {
      assert Items([x]) == Items([y]);
    }
  }

  lemma KeyedSnoc(haircuts: map<string, real>, hs: seq<Keyed<Holding>>, h: Keyed<Holding>)
    ensures KeyedByItem(haircuts, hs + [h]) <==>
      KeyedByItem(haircuts, hs) && h.key == RankingHaircut(haircuts, h.value.item.kind)
  {
    hide RankingHaircut;
    var all := hs + [h];
    assert h in all && forall x :: x in all <==> x in hs || x == h;
  }

  lemma ItemsSnoc(hs: seq<Keyed<Holding>>, h: Keyed<Holding>)
    ensures Items(hs + [h]) == Items(hs) + [h.value.item]
  {
  }

  lemma ItemsPrefix(hs: seq<Keyed<Holding>>, n: nat)
    requires n <= |hs|
    ensures Items(hs[..n]) == Items(hs)[..n]
  {
  }

  lemma {:induction false} SortSameItems(haircuts: map<string, real>, a: seq<Keyed<Holding>>, b: seq<Keyed<Holding>>)
    requires KeyedByItem(haircuts, a) && KeyedByItem(haircuts, b) && Items(a) == Items(b)
    ensures Items(Sort(a)) == Items(Sort(b)) && KeyedByItem(haircuts, Sort(a)) && KeyedByItem(haircuts, Sort(b))
  {
    assert |a| == |Items(a)| == |Items(b)| == |b|;
    if a != [] {
      var last := |a| - 1;
      assert forall i :: 0 <= i <= last ==> a[i].value.item == Items(a)[i] == Items(b)[i] == b[i].value.item;
      assert Items(a[..last]) == Items(b[..last]);
      SortSameItems(haircuts, a[..last], b[..last]);
      InsertSameItems(haircuts, Sort(a[..last]), Sort(b[..last]), a[last], b[last]);
    }
  }

  lemma {:induction false} HoldingsSameItems(
      eligible: seq<string>, haircuts: map<string, real>, inventory: seq<Item>, x: seq<real>)
    requires |inventory| == |x|
    ensures Items(EligibleHoldings(eligible, haircuts, inventory, x))
         == Items(EligibleHoldings(eligible, haircuts, inventory, Zeros(|inventory|)))
  {
    hide RankingHaircut;
    if inventory != [] {
      HoldingsSameItems(eligible, haircuts, inventory[1..], x[1..]);
      assert Zeros(|inventory|)[1..] == Zeros(|inventory[1..]|);
      var hs, zs := EligibleHoldings(eligible, haircuts, inventory[1..], x[1..]),
                    EligibleHoldings(eligible, haircuts, inventory[1..], Zeros(|inventory[1..]|));
      if inventory[0].kind in eligible {
        var key := RankingHaircut(haircuts, inventory[0].kind);
        ItemsCons(Keyed(key, Holding(inventory[0], x[0])), hs);
        ItemsCons(Keyed(key, Holding(inventory[0], 0.0)), zs);
      } else {
        assert [] + hs == hs && [] + zs == zs;
      }
    }
  }

  lemma ItemsCons(h: Keyed<Holding>, hs: seq<Keyed<Holding>>)
    ensures Items([h] + hs) == [h.value.item] + Items(hs)
  {
  }

  lemma {:induction false} HoldingsKeyed(
      eligible: seq<string>, haircuts: map<string, real>, inventory: seq<Item>, x: seq<real>)
    requires |inventory| == |x|
    ensures var hs := EligibleHoldings(eligible, haircuts, inventory, x);
      && KeyedByItem(haircuts, hs)
      && (forall h <- hs :: h.value.item.kind in eligible)
      && (Within(inventory, x) ==> forall h <- hs :: 0.0 <= h.value.raw <= Max(0.0, h.value.item.available))
      && Items(hs) == Items(EligibleHoldings(eligible, haircuts, inventory, Zeros(|inventory|)))
  {
    HoldingsSameItems(eligible, haircuts, inventory, x);
    if inventory != [] {
      assert Within(inventory, x) ==> Within(inventory[1..], x[1..]);
      HoldingsKeyed(eligible, haircuts, inventory[1..], x[1..]);
      hide Items;
      var hs := EligibleHoldings(eligible, haircuts, inventory[1..], x[1..]);
      assert [] + hs == hs;
    }
  }

  // ----- the main results -------------------------------------------------------------

  function GreedyRaw(required: real, eligible: seq<string>, haircuts: map<string, real>, inventory: seq<Item>): real {
    var ranked := Ranked(eligible, haircuts, inventory);
    if required <= 0.0 then 0.0 else Total(Posted(haircuts, ranked, required))
  }

  function GreedyCredit(
      required: real, eligible: seq<string>, haircuts: map<string, real>, inventory: seq<Item>): real {
    var ranked := Ranked(eligible, haircuts, inventory);
    if required <= 0.0 then 0.0 else Credit(haircuts, ranked, Posted(haircuts, ranked, required))
  }

  /** No selection from the inventory earning at least the same credit posts less raw value. */
  ghost predicate Cheapest(required: real, eligible: seq<string>, haircuts: map<string, real>, inventory: seq<Item>) {
    forall x | Selection(eligible, inventory, x)
            && Credit(haircuts, inventory, x) >= GreedyCredit(required, eligible, haircuts, inventory) ::
      Total(x) >= GreedyRaw(required, eligible, haircuts, inventory)
  }

  /** Every selection of the inventory is, re-ordered, a selection of the ranked list worth the same. */
  lemma SelectionOnRanked(eligible: seq<string>, haircuts: map<string, real>, inventory: seq<Item>, x: seq<real>)
    returns (y: seq<real>)
    requires Selection(eligible, inventory, x)
    ensures var ranked := Ranked(eligible, haircuts, inventory);
      && Within(ranked, y) && Total(y) == Total(x) && Credit(haircuts, ranked, y) == Credit(haircuts, inventory, x)
  {
    hide Scaled;
    var hs := EligibleHoldings(eligible, haircuts, inventory, x);
    var zs := EligibleHoldings(eligible, haircuts, inventory, Zeros(|inventory|));
    HoldingsKeyed(eligible, haircuts, inventory, x);
    HoldingsKeyed(eligible, haircuts, inventory, Zeros(|inventory|));
    SortSameItems(haircuts, hs, zs);
    y := Raws(Sort(hs));
    SortSpec(hs, 0.0);
    assert |Items(Sort(hs))| == |Sort(hs)|;
    forall i | 0 <= i < |y| ensures 0.0 <= y[i] <= Max(0.0, Items(Sort(hs))[i].available) {
      assert Sort(hs)[i] in multiset(Sort(hs));
      assert Sort(hs)[i] in hs;
    }
    SortSums(haircuts, hs);
    SumsOfHoldings(haircuts, Sort(hs));
    EligibleSums(eligible, haircuts, inventory, x);
  }

  lemma {:induction false} SumsOfHoldings(haircuts: map<string, real>, hs: seq<Keyed<Holding>>)
    ensures RawSum(hs) == Total(Raws(hs)) && CreditSum(haircuts, hs) == Credit(haircuts, Items(hs), Raws(hs))
  {
    hide Scaled;
    if hs != [] {
      var head, h := hs[..|hs| - 1], hs[|hs| - 1].value;
      SumsOfHoldings(haircuts, head);
      assert Raws(hs) == Raws(head) + [h.raw] && Items(hs) == Items(head) + [h.item];
      SnocSums(haircuts, Items(head), Raws(head), h.item, h.raw);
    }
  }

  lemma {:induction false} SnocSums(haircuts: map<string, real>, items: seq<Item>, x: seq<real>, item: Item, raw: real)
    requires |items| == |x|
    ensures Total(x + [raw]) == Total(x) + raw
    ensures Credit(haircuts, items + [item], x + [raw])
      == Credit(haircuts, items, x) + Scaled(raw, Rate(haircuts, item))
  {
    hide Scaled;
    if items == [] {
      assert x + [raw] == [raw] && items + [item] == [item];
      assert Total([raw]) == raw + Total([]);
      assert Credit(haircuts, [item], [raw]) == Scaled(raw, Rate(haircuts, item)) + Credit(haircuts, [], []);
    } else {
      assert (x + [raw])[1..] == x[1..] + [raw] && (items + [item])[1..] == items[1..] + [item];
      SnocSums(haircuts, items[1..], x[1..], item, raw);
    }
  }

  lemma {:induction false} ConsSums(haircuts: map<string, real>, h: Keyed<Holding>, hs: seq<Keyed<Holding>>)
    ensures RawSum([h] + hs) == h.value.raw + RawSum(hs)
    ensures CreditSum(haircuts, [h] + hs) == Scaled(h.value.raw, Rate(haircuts, h.value.item)) + CreditSum(haircuts, hs)
  {
    hide Scaled;
    if hs == [] {
      assert [h] + hs == [h] && [h][..0] == [];
    } else {
      assert ([h] + hs)[..|hs|] == [h] + hs[..|hs| - 1];
      ConsSums(haircuts, h, hs[..|hs| - 1]);
    }
  }

  lemma {:induction false} EligibleSums(
      eligible: seq<string>, haircuts: map<string, real>, inventory: seq<Item>, x: seq<real>)
    requires |inventory| == |x| && forall i :: 0 <= i < |x| && inventory[i].kind !in eligible ==> x[i] == 0.0
    ensures var hs := EligibleHoldings(eligible, haircuts, inventory, x);
      RawSum(hs) == Total(x) && CreditSum(haircuts, hs) == Credit(haircuts, inventory, x)
  {
    if inventory != [] {
      EligibleSums(eligible, haircuts, inventory[1..], x[1..]);
      var hs := EligibleHoldings(eligible, haircuts, inventory[1..], x[1..]);
      assert [] + hs == hs;
      if inventory[0].kind in eligible {
        ConsSums(haircuts, Keyed(RankingHaircut(haircuts, inventory[0].kind), Holding(inventory[0], x[0])), hs);
      }
    }
  }

  /** No eligible type lacks a haircut while another has one strictly between zero and one. */
  ghost predicate HaircutsConsistent(eligible: seq<string>, haircuts: map<string, real>) {
    !exists a, b :: a in eligible && b in eligible && a !in haircuts && b in haircuts && 0.0 < haircuts[b] < 1.0
  }

  lemma ConsistentRanksByRate(eligible: seq<string>, haircuts: map<string, real>, inventory: seq<Item>)
    requires HaircutsConsistent(eligible, haircuts)
    ensures RankedByRate(haircuts, Ranked(eligible, haircuts, inventory))
  {
    var hs := EligibleHoldings(eligible, haircuts, inventory, Zeros(|inventory|));
    var sorted := Sort(hs);
    HoldingsKeyed(eligible, haircuts, inventory, Zeros(|inventory|));
    SortSpec(hs, 0.0);
    forall i | 0 <= i < |sorted| ensures sorted[i] in hs {
      assert sorted[i] in multiset(sorted);
    }
    forall i, j | 0 <= i < j < |sorted| && Usable(haircuts, sorted[i].value.item)
      && Usable(haircuts, sorted[j].value.item)
      ensures Rate(haircuts, sorted[i].value.item) >= Rate(haircuts, sorted[j].value.item)
    {
      var a, b := sorted[i].value.item.kind, sorted[j].value.item.kind;
      assert sorted[i].key <= sorted[j].key;
      assert sorted[i] in hs && sorted[j] in hs;
    }
  }

  /** With consistent haircuts the greedy selection is within the inventory's means
      and nothing earning as much credit posts less. */
  lemma GreedyIsCheapest(required: real, eligible: seq<string>, haircuts: map<string, real>, inventory: seq<Item>)
    requires HaircutsConsistent(eligible, haircuts)
    ensures Cheapest(required, eligible, haircuts, inventory)
  {
    var ranked := Ranked(eligible, haircuts, inventory);
    forall x | Selection(eligible, inventory, x)
            && Credit(haircuts, inventory, x) >= GreedyCredit(required, eligible, haircuts, inventory)
      ensures Total(x) >= GreedyRaw(required, eligible, haircuts, inventory)
    {
      TotalNonNegative(x);
      if required > 0.0 {
        ConsistentRanksByRate(eligible, haircuts, inventory);
        var y := SelectionOnRanked(eligible, haircuts, inventory, x);
        PostedIsCheapest(haircuts, ranked, required, y);
      }
    }
  }

  lemma RankedPair(eligible: seq<string>, haircuts: map<string, real>, first: Item, second: Item)
    requires first.kind in eligible && second.kind in eligible
    requires RankingHaircut(haircuts, first.kind) <= RankingHaircut(haircuts, second.kind)
    ensures Ranked(eligible, haircuts, [first, second]) == [first, second]
  {
    var f := Keyed(RankingHaircut(haircuts, first.kind), Holding(first, 0.0));
    var s := Keyed(RankingHaircut(haircuts, second.kind), Holding(second, 0.0));
    PairHoldings(eligible, haircuts, first, second);
    SortOfPair(f, s);
    hide Sort, EligibleHoldings;
    assert Items([f, s]) == [first, second];
  }

  lemma PairHoldings(eligible: seq<string>, haircuts: map<string, real>, first: Item, second: Item)
    requires first.kind in eligible && second.kind in eligible
    ensures EligibleHoldings(eligible, haircuts, [first, second], Zeros(2))
         == [Keyed(RankingHaircut(haircuts, first.kind), Holding(first, 0.0)),
             Keyed(RankingHaircut(haircuts, second.kind), Holding(second, 0.0))]
  {
    assert [first, second][1..] == [second] && [second][1..] == [] && Zeros(2)[1..] == Zeros(1) && Zeros(1)[1..] == [];
    assert EligibleHoldings(eligible, haircuts, [], []) == [];
    assert EligibleHoldings(eligible, haircuts, [second], Zeros(1))
        == [Keyed(RankingHaircut(haircuts, second.kind), Holding(second, 0.0))];
  }

  lemma Quotient(a: real, rate: real, product: real)
    requires rate > 0.0 && Scaled(a, rate) == product
    ensures product / rate == a
  {
    assert product == a * rate;
  }

  /** Two items, the first of which alone meets the requirement. */
  lemma FirstAloneIsPosted(haircuts: map<string, real>, first: Item, second: Item, required: real)
    requires Usable(haircuts, first) && required > CREDIT_EPSILON
    requires Scaled(first.available, Rate(haircuts, first)) == required
    ensures Posted(haircuts, [first, second], required) == [first.available, 0.0]
  {
    var rate := Rate(haircuts, first);
    Quotient(first.available, rate, required);
    assert [first, second][1..] == [second];
    assert Posted(haircuts, [second], 0.0) == Zeros(1) == [0.0];
  }

  lemma PairSums(haircuts: map<string, real>, first: Item, second: Item, x: real, y: real)
    ensures Total([x, y]) == x + y
    ensures Credit(haircuts, [first, second], [x, y])
         == Scaled(x, Rate(haircuts, first)) + Scaled(y, Rate(haircuts, second))
  {
    hide Scaled;
    assert [x, y][1..] == [y] && [y][1..] == [] && [first, second][1..] == [second] && [second][1..] == [];
    assert Total([y]) == y + Total([y][1..]);
    assert Credit(haircuts, [second], [y])
        == Scaled(y, Rate(haircuts, second)) + Credit(haircuts, [second][1..], [y][1..]);
  }

  /** The failing family: `a` has no haircut, `b` has one between zero and one. The
      ranking puts `b` first although the selection credits `a` in full, so one unit
      of credit is bought with more than one unit of `b` while one unit of `a` would do. */
  lemma InconsistentMisranks(eligible: seq<string>, haircuts: map<string, real>, a: string, b: string)
    requires a in eligible && b in eligible && a !in haircuts && b in haircuts && 0.0 < haircuts[b] < 1.0
    ensures var unit := 1.0 / (1.0 - haircuts[b]);
      !Cheapest(1.0, eligible, haircuts, [Item(b, unit), Item(a, 1.0)])
  {
    hide Credit, Total, Posted, Ranked;
    var rate := 1.0 - haircuts[b];
    var unit := 1.0 / rate;
    var itemB, itemA := Item(b, unit), Item(a, 1.0);
    assert unit * rate == 1.0 && unit > 1.0;
    assert Scaled(unit, rate) == 1.0;
    RankedPair(eligible, haircuts, itemB, itemA);
    FirstAloneIsPosted(haircuts, itemB, itemA, 1.0);
    PairSums(haircuts, itemB, itemA, unit, 0.0);
    PairSums(haircuts, itemB, itemA, 0.0, 1.0);
    assert Selection(eligible, [itemB, itemA], [0.0, 1.0]);
  }

  /** The greedy selection is cheapest for every inventory and requirement exactly
      when the haircut table treats the eligible types consistently. */
  lemma CheapestExactlyWhenConsistent(eligible: seq<string>, haircuts: map<string, real>)
    ensures HaircutsConsistent(eligible, haircuts)
       <==> forall required, inventory :: Cheapest(required, eligible, haircuts, inventory)
  {
    if HaircutsConsistent(eligible, haircuts) {
      forall required, inventory ensures Cheapest(required, eligible, haircuts, inventory) {
        GreedyIsCheapest(required, eligible, haircuts, inventory);
      }
    } else {
      var a, b :| a in eligible && b in eligible && a !in haircuts && b in haircuts && 0.0 < haircuts[b] < 1.0;
      InconsistentMisranks(eligible, haircuts, a, b);
    }
  }

  /** Whatever the haircuts, the selection never exceeds the requirement and is
      fully funded exactly when the usable inventory is worth the requirement to
      within the epsilon. */
  lemma FundedExactlyWhenAffordable(
      required: real, eligible: seq<string>, haircuts: map<string, real>, inventory: seq<Item>)
    requires required > 0.0
    ensures var credit := GreedyCredit(required, eligible, haircuts, inventory);
      && 0.0 <= credit <= required
      && (var ranked := Ranked(eligible, haircuts, inventory); Within(ranked, Posted(haircuts, ranked, required)))
      && (required - credit <= CREDIT_EPSILON
          <==> UsableCredit(haircuts, Filtered(eligible, inventory)) >= required - CREDIT_EPSILON)
  {
    PostedCovers(haircuts, Ranked(eligible, haircuts, inventory), required);
    UsableOfRanked(eligible, haircuts, inventory);
  }

  function Filtered(eligible: seq<string>, inventory: seq<Item>): seq<Item> {
    if inventory == [] then []
    else (if inventory[0].kind in eligible then [inventory[0]] else []) + Filtered(eligible, inventory[1..])
  }

  lemma {:induction false} UsableInsert(haircuts: map<string, real>, hs: seq<Keyed<Holding>>, h: Keyed<Holding>)
    ensures UsableCredit(haircuts, Items(Insert(hs, h)))
         == UsableCredit(haircuts, Items(hs)) + UsableCredit(haircuts, [h.value.item])
  {
    hide Scaled;
    if hs == [] || hs[|hs| - 1].key <= h.key {
      assert Items(hs + [h]) == Items(hs) + [h.value.item];
      UsableAppend(haircuts, Items(hs), [h.value.item]);
    } else {
      var head, last := hs[..|hs| - 1], hs[|hs| - 1];
      UsableInsert(haircuts, head, h);
      var r := Insert(head, h);
      assert Items(r + [last]) == Items(r) + [last.value.item] && Items(hs) == Items(head) + [last.value.item];
      UsableAppend(haircuts, Items(r), [last.value.item]);
      UsableAppend(haircuts, Items(head), [last.value.item]);
    }
  }

  lemma {:induction false} UsableAppend(haircuts: map<string, real>, a: seq<Item>, b: seq<Item>)
    ensures UsableCredit(haircuts, a + b) == UsableCredit(haircuts, a) + UsableCredit(haircuts, b)
  {
    hide Scaled;
    if a == [] {
      assert a + b == b;
    } else {
      assert (a + b)[1..] == a[1..] + b;
      UsableAppend(haircuts, a[1..], b);
    }
  }

  lemma {:induction false} UsableSort(haircuts: map<string, real>, hs: seq<Keyed<Holding>>)
    ensures UsableCredit(haircuts, Items(Sort(hs))) == UsableCredit(haircuts, Items(hs))
  {
    if hs != [] {
      var head, last := hs[..|hs| - 1], hs[|hs| - 1];
      UsableSort(haircuts, head);
      UsableInsert(haircuts, Sort(head), last);
      assert Items(hs) == Items(head) + [last.value.item];
      UsableAppend(haircuts, Items(head), [last.value.item]);
    }
  }

  lemma {:induction false} FilteredItems(eligible: seq<string>, haircuts: map<string, real>, inventory: seq<Item>)
    ensures Items(EligibleHoldings(eligible, haircuts, inventory, Zeros(|inventory|))) == Filtered(eligible, inventory)
  {
    if inventory != [] {
      FilteredItems(eligible, haircuts, inventory[1..]);
      assert Zeros(|inventory|)[1..] == Zeros(|inventory[1..]|);
    }
  }

  lemma UsableOfRanked(eligible: seq<string>, haircuts: map<string, real>, inventory: seq<Item>)
    ensures UsableCredit(haircuts, Ranked(eligible, haircuts, inventory))
         == UsableCredit(haircuts, Filtered(eligible, inventory))
  {
    UsableSort(haircuts, EligibleHoldings(eligible, haircuts, inventory, Zeros(|inventory|)));
    FilteredItems(eligible, haircuts, inventory);
  }
}
