/**
 `Portfolio` and `Portfolio.rebalance` of Portfolio.py: for every symbol of
 the target allocation, in the allocation's order, how far the holding is from
 its target share of the portfolio's total value, expressed in money and in
 shares, and whether to buy, sell or hold.
 */
module Rebalancing {
  import opened Stocks
  import opened StockMaps

  /** One entry of the target allocation dict: a symbol and the fraction of
      the total value it should have. */
  datatype Target = Target(symbol: string, pct: real)

  /** Insertion-ordered dict from symbol to target fraction. The fractions are
      meant to add up to 1, but nothing checks it. */
  type Allocation = seq<Target>

  datatype Portfolio = Portfolio(stocks: StockMap, targetAllocation: Allocation)

  datatype Action = Buy | Sell | Hold

  /** The per-symbol record of the plan (the inner dict of `rebalance`, with
      its key carried along). */
  datatype Adjustment = Adjustment(
    symbol: string,
    currentValue: real,
    targetValue: real,
    diffValue: real,
    diffShares: real,
    action: Action)

  /** `rebalance` divides by the price of a held stock; a zero price raises
      Python's ZeroDivisionError and no plan is returned. */
  datatype RebalanceError = ZeroDivision(symbol: string)

  datatype Result<T> = Ok(value: T) | Err(error: RebalanceError)

  function AllocationSymbols(alloc: Allocation): (keys: set<string>)
  {
    set i | 0 <= i < |alloc| :: alloc[i].symbol
  }

  /** A Python dict has no repeated keys. */
  predicate DistinctTargets(alloc: Allocation)
  {
    forall i, j :: 0 <= i < j < |alloc| ==> alloc[i].symbol != alloc[j].symbol
  }

  /** `Portfolio.__init__`: the list of stocks becomes the symbol-keyed map;
      the allocation is stored as given, unvalidated. */
  function NewPortfolio(stocks: seq<Stock>, targetAllocation: Allocation): (p: Portfolio)
    ensures DistinctSymbols(p.stocks) && Symbols(p.stocks) == Symbols(stocks)
    ensures forall i :: 0 <= i < |stocks| && IsLastOccurrence(stocks, i) ==>
      Lookup(p.stocks, stocks[i].symbol) == Some(stocks[i])
    ensures p.targetAllocation == targetAllocation
  {
    forall i | 0 <= i < |stocks| && IsLastOccurrence(stocks, i)
      ensures Lookup(BuildStockMap(stocks), stocks[i].symbol) == Some(stocks[i])
    {
      BuildStockMapLastWins(stocks, i);
    }
    Portfolio(BuildStockMap(stocks), targetAllocation)
  }

  /** The action is named after the sign of the value still to trade. */
  function ActionFor(diffValue: real): (a: Action)
    ensures a == Buy <==> diffValue > 0.0
    ensures a == Sell <==> diffValue < 0.0
    ensures a == Hold <==> diffValue == 0.0
  {
    if diffValue > 0.0 then Buy else if diffValue < 0.0 then Sell else Hold
  }

  /** `symbol` is held, at a price of zero: dividing by it fails. */
  predicate ZeroPriced(m: StockMap, symbol: string)
  {
    Lookup(m, symbol).Some? && Lookup(m, symbol).value.currentPrice == 0.0
  }

  /** What an entry of the plan means for target `t` of a portfolio holding
      `m` worth `totalValue`: it starts from what is held, it aims at the
      target's share of the total, trading `diffValue` gets there, trading
      `diffShares` shares at the current price gets there too (a symbol that
      is not held is priced at 1), and the action names the direction. */
  predicate Realizes(m: StockMap, totalValue: real, t: Target, a: Adjustment)
  {
    && a.symbol == t.symbol
    && a.currentValue == CurrentValue(m, t.symbol)
    && a.targetValue == totalValue * t.pct
    && a.currentValue + a.diffValue == a.targetValue
    && (match Lookup(m, t.symbol)
        case Some(s) => (s.shares + a.diffShares) * s.currentPrice == a.targetValue
        case None => a.diffShares == a.diffValue)
    && (a.action == Buy <==> a.diffValue > 0.0)
    && (a.action == Sell <==> a.diffValue < 0.0)
  }

  /** One iteration of the loop in `rebalance`. */
  function Adjust(m: StockMap, totalValue: real, t: Target): (r: Result<Adjustment>)
    ensures r.Err? <==> ZeroPriced(m, t.symbol)
    ensures r.Err? ==> r.error == ZeroDivision(t.symbol)
    ensures r.Ok? ==> Realizes(m, totalValue, t, r.value)
  {
    var stock := Lookup(m, t.symbol);
    var currentValue := if stock.Some? then stock.value.Value() else 0.0;
    var targetValue := totalValue * t.pct;
    var diffValue := targetValue - currentValue;
    if stock.Some? && stock.value.currentPrice == 0.0 then
      Err(ZeroDivision(t.symbol))
    else
      // A symbol that is targeted but not held is given a price of 1, so its
      // share delta is its money delta. Portfolio.py marks this as an assumption;
      // it is a placeholder rather than a price.
      var diffShares := if stock.Some? then diffValue / stock.value.currentPrice else targetValue / 1.0;
      assert stock.Some? ==>
        (stock.value.shares + diffShares) * stock.value.currentPrice
          == stock.value.Value() + diffValue;
      Ok(Adjustment(t.symbol, currentValue, targetValue, diffValue, diffShares, ActionFor(diffValue)))
  }

  /** The first target, in allocation order, whose symbol is held at price 0. */
  predicate FirstZeroPriced(m: StockMap, alloc: Allocation, i: int)
  {
    && 0 <= i < |alloc|
    && ZeroPriced(m, alloc[i].symbol)
    && forall j :: 0 <= j < i ==> !ZeroPriced(m, alloc[j].symbol)
  }

  /** The loop of `rebalance` over the allocation, with the total computed
      once beforehand. */
  function AdjustAll(m: StockMap, totalValue: real, alloc: Allocation): (r: Result<seq<Adjustment>>)
    ensures r.Ok? <==> forall i :: 0 <= i < |alloc| ==> !ZeroPriced(m, alloc[i].symbol)
    ensures r.Ok? ==> |r.value| == |alloc|
    ensures r.Ok? ==> forall i :: 0 <= i < |alloc| ==> Realizes(m, totalValue, alloc[i], r.value[i])
    ensures r.Err? ==> exists i :: FirstZeroPriced(m, alloc, i) && r.error == ZeroDivision(alloc[i].symbol)
  {
    if |alloc| == 0 then Ok([])
    else
      match Adjust(m, totalValue, alloc[0])
      case Err(e) =>
        assert FirstZeroPriced(m, alloc, 0);
        Err(e)
      case Ok(a) =>
        match AdjustAll(m, totalValue, alloc[1..])
        case Err(e) =>
          var k :| FirstZeroPriced(m, alloc[1..], k) && e == ZeroDivision(alloc[1..][k].symbol);
          assert FirstZeroPriced(m, alloc, k + 1);
          Err(e)
        case Ok(rest) => Ok([a] + rest)
  }

  /** `Portfolio.rebalance`. */
  function Rebalance(p: Portfolio): (r: Result<seq<Adjustment>>)
    ensures r.Ok? <==> forall i :: 0 <= i < |p.targetAllocation| ==> !ZeroPriced(p.stocks, p.targetAllocation[i].symbol)
    ensures r.Ok? ==> |r.value| == |p.targetAllocation|
    ensures r.Ok? ==> forall i :: 0 <= i < |p.targetAllocation| ==>
      Realizes(p.stocks, TotalValue(p.stocks), p.targetAllocation[i], r.value[i])
    ensures r.Err? ==>
      exists i :: FirstZeroPriced(p.stocks, p.targetAllocation, i) && r.error == ZeroDivision(p.targetAllocation[i].symbol)
  {
    AdjustAll(p.stocks, TotalValue(p.stocks), p.targetAllocation)
  }

  /** The meaning of an entry pins it down: given a symbol that is not held at
      price 0, two entries that both realize the same target are the same
      entry. */
  lemma RealizesDetermines(m: StockMap, totalValue: real, t: Target, a: Adjustment, b: Adjustment)
    requires !ZeroPriced(m, t.symbol)
    requires Realizes(m, totalValue, t, a) && Realizes(m, totalValue, t, b)
    ensures a == b
  {
  }

  /** The plan has one entry per allocation entry, in the allocation's order;
      a held symbol that the allocation does not mention gets no entry, and
      since allocation keys are distinct so are the plan's. */
  lemma RebalanceKeys(p: Portfolio)
    requires Rebalance(p).Ok?
    ensures var plan := Rebalance(p).value;
      && |plan| == |p.targetAllocation|
      && (forall i :: 0 <= i < |plan| ==> plan[i].symbol == p.targetAllocation[i].symbol)
      && (forall k :: k in Symbols(p.stocks) && k !in AllocationSymbols(p.targetAllocation) ==>
            forall i :: 0 <= i < |plan| ==> plan[i].symbol != k)
      && (DistinctTargets(p.targetAllocation) ==>
            forall i, j :: 0 <= i < j < |plan| ==> plan[i].symbol != plan[j].symbol)
  {
  }

  /** For a held symbol, an entry that realizes its target has converted the
      money delta into shares at the current price (which, in a plan that
      `Rebalance` returns, is never 0), starting from shares × price. */
  lemma HeldDiffShares(m: StockMap, totalValue: real, t: Target, a: Adjustment, s: Stock)
    requires Realizes(m, totalValue, t, a) && Lookup(m, t.symbol) == Some(s)
    ensures a.currentValue == s.shares * s.currentPrice
    ensures a.diffShares * s.currentPrice == a.diffValue
  {
  }

  /** In a plan, a targeted symbol that is held has a nonzero price, and its
      share delta is its value delta divided by that price. */
  lemma HeldPlanShares(p: Portfolio, i: int, s: Stock)
    requires Rebalance(p).Ok? && 0 <= i < |p.targetAllocation|
    requires Lookup(p.stocks, p.targetAllocation[i].symbol) == Some(s)
    ensures s.currentPrice != 0.0
    ensures var a := Rebalance(p).value[i];
      && a.currentValue == s.shares * s.currentPrice
      && a.diffShares == a.diffValue / s.currentPrice
  {
    var t := p.targetAllocation[i];
    var a := Rebalance(p).value[i];
    assert !ZeroPriced(p.stocks, t.symbol);
    HeldDiffShares(p.stocks, TotalValue(p.stocks), t, a, s);
    DivideBack(a.diffShares, s.currentPrice, a.diffValue);
  }

  lemma DivideBack(x: real, price: real, y: real)
    requires price != 0.0 && x * price == y
    ensures x == y / price
  {
  }

  /** A targeted symbol that is not held starts from nothing; with the price
      taken as 1 the share delta equals the target value, and it is bought
      exactly when its target value is positive. */
  lemma UnheldTarget(p: Portfolio, i: int)
    requires Rebalance(p).Ok? && 0 <= i < |p.targetAllocation|
    requires Lookup(p.stocks, p.targetAllocation[i].symbol).None?
    ensures var a := Rebalance(p).value[i];
      && a.currentValue == 0.0
      && a.diffValue == a.targetValue
      && a.diffShares == a.targetValue
      && (a.action == Buy <==> a.targetValue > 0.0)
  {
  }
}
