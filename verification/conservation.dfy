/**
 Conservation of value across a rebalancing plan. The allocation fractions are
 meant to add up to 1 (a promise of the caller, never checked); under that
 promise the targets share out exactly the portfolio's total value, and when
 every held symbol is targeted the trades cancel out.
 */
module Conservation {
  import opened Stocks
  import opened StockMaps
  import opened Rebalancing

  function SumPct(alloc: Allocation): (sum: real)
  {
    if |alloc| == 0 then 0.0 else alloc[0].pct + SumPct(alloc[1..])
  }

  function SumTargetValues(plan: seq<Adjustment>): (sum: real)
  {
    if |plan| == 0 then 0.0 else plan[0].targetValue + SumTargetValues(plan[1..])
  }

  function SumCurrentValues(plan: seq<Adjustment>): (sum: real)
  {
    if |plan| == 0 then 0.0 else plan[0].currentValue + SumCurrentValues(plan[1..])
  }

  function SumDiffValues(plan: seq<Adjustment>): (sum: real)
  {
    if |plan| == 0 then 0.0 else plan[0].diffValue + SumDiffValues(plan[1..])
  }

  /** Value currently held under the allocation's symbols (0 for each one not held). */
  function HeldUnder(m: StockMap, alloc: Allocation): (sum: real)
  {
    if |alloc| == 0 then 0.0 else CurrentValue(m, alloc[0].symbol) + HeldUnder(m, alloc[1..])
  }

  /** Each entry aims at its target's share of `totalValue`. */
  predicate AimsAt(totalValue: real, alloc: Allocation, plan: seq<Adjustment>)
  {
    |plan| == |alloc| && forall i :: 0 <= i < |alloc| ==> plan[i].targetValue == totalValue * alloc[i].pct
  }

  /** Each entry starts from what is held under its target's symbol and
      trades the difference to its target value. */
  predicate TradesFromHeld(m: StockMap, alloc: Allocation, plan: seq<Adjustment>)
  {
    && |plan| == |alloc|
    && forall i :: 0 <= i < |alloc| ==>
         plan[i].currentValue == CurrentValue(m, alloc[i].symbol) &&
         plan[i].currentValue + plan[i].diffValue == plan[i].targetValue
  }

  lemma RebalanceAimsAndTrades(p: Portfolio)
    requires Rebalance(p).Ok?
    ensures AimsAt(TotalValue(p.stocks), p.targetAllocation, Rebalance(p).value)
    ensures TradesFromHeld(p.stocks, p.targetAllocation, Rebalance(p).value)
  {
  }

  /** The target values share out `totalValue` in the allocation's proportions. */
  lemma {:induction false} TargetValuesScale(totalValue: real, alloc: Allocation, plan: seq<Adjustment>)
    requires AimsAt(totalValue, alloc, plan)
    ensures SumTargetValues(plan) == totalValue * SumPct(alloc)
  {
    if |alloc| > 0 {
      assert AimsAt(totalValue, alloc[1..], plan[1..]) by {
        forall i | 0 <= i < |alloc| - 1
          ensures plan[1..][i].targetValue == totalValue * alloc[1..][i].pct
        {
          assert plan[1..][i] == plan[i + 1] && alloc[1..][i] == alloc[i + 1];
        }
      }
      TargetValuesScale(totalValue, alloc[1..], plan[1..]);
      var head, tail := alloc[0].pct, SumPct(alloc[1..]);
      assert totalValue * head + totalValue * tail == totalValue * (head + tail);
    }
  }

  /** The plan's current values are what is held under the allocation's symbols,
      and each entry's trade closes the gap between the two. */
  lemma {:induction false} CurrentAndDiffValues(m: StockMap, alloc: Allocation, plan: seq<Adjustment>)
    requires TradesFromHeld(m, alloc, plan)
    ensures SumCurrentValues(plan) == HeldUnder(m, alloc)
    ensures SumDiffValues(plan) == SumTargetValues(plan) - SumCurrentValues(plan)
  {
    if |alloc| > 0 {
      assert TradesFromHeld(m, alloc[1..], plan[1..]) by {
        forall i | 0 <= i < |alloc| - 1
          ensures plan[1..][i].currentValue == CurrentValue(m, alloc[1..][i].symbol)
          ensures plan[1..][i].currentValue + plan[1..][i].diffValue == plan[1..][i].targetValue
        {
          assert plan[1..][i] == plan[i + 1] && alloc[1..][i] == alloc[i + 1];
        }
      }
      CurrentAndDiffValues(m, alloc[1..], plan[1..]);
    }
  }

  lemma AllocationSymbolsCons(alloc: Allocation)
    requires |alloc| > 0
    ensures AllocationSymbols(alloc) == {alloc[0].symbol} + AllocationSymbols(alloc[1..])
  {
  }

  /** Adding a stock in front of a map with a new symbol adds its value once
      if the allocation targets its symbol, and nothing otherwise. */
  lemma {:induction false} HeldUnderCons(s: Stock, rest: StockMap, alloc: Allocation)
    requires s.symbol !in Symbols(rest) && DistinctTargets(alloc)
    ensures HeldUnder([s] + rest, alloc)
         == HeldUnder(rest, alloc) + (if s.symbol in AllocationSymbols(alloc) then s.Value() else 0.0)
  {
    if |alloc| > 0 {
      var k := alloc[0].symbol;
      assert DistinctTargets(alloc[1..]);
      AllocationSymbolsCons(alloc);
      HeldUnderCons(s, rest, alloc[1..]);
      if k == s.symbol {
        assert k !in AllocationSymbols(alloc[1..]);
        assert Lookup(rest, k).None?;
      }
    }
  }

  lemma {:induction false} HeldUnderNothing(alloc: Allocation)
    ensures HeldUnder([], alloc) == 0.0
  {
    if |alloc| > 0 {
      HeldUnderNothing(alloc[1..]);
    }
  }

  /** If every held symbol is targeted, the targets account for everything held. */
  lemma {:induction false} HeldUnderCoversTotal(m: StockMap, alloc: Allocation)
    requires DistinctSymbols(m) && DistinctTargets(alloc)
    requires Symbols(m) <= AllocationSymbols(alloc)
    ensures HeldUnder(m, alloc) == TotalValue(m)
  {
    if |m| == 0 {
      HeldUnderNothing(alloc);
    } else {
      assert m == [m[0]] + m[1..];
      SymbolsCons(m[0], m[1..]);
      assert DistinctSymbols(m[1..]);
      HeldUnderCoversTotal(m[1..], alloc);
      HeldUnderCons(m[0], m[1..], alloc);
    }
  }

  /** With fractions adding up to 1, the plan's target values add up to the
      portfolio's total value. */
  lemma TargetValuesConserveTotal(p: Portfolio)
    requires Rebalance(p).Ok?
    requires SumPct(p.targetAllocation) == 1.0
    ensures SumTargetValues(Rebalance(p).value) == TotalValue(p.stocks)
  {
    RebalanceAimsAndTrades(p);
    TargetValuesScale(TotalValue(p.stocks), p.targetAllocation, Rebalance(p).value);
  }

  /** With fractions adding up to 1 and every held symbol targeted (in
      particular when the allocation's symbols are exactly the held ones),
      what the plan buys and what it sells balance: the value deltas add up
      to 0. Every portfolio built by `NewPortfolio` has distinct symbols. */
  lemma DiffValuesCancel(p: Portfolio)
    requires DistinctSymbols(p.stocks) && DistinctTargets(p.targetAllocation)
    requires SumPct(p.targetAllocation) == 1.0
    requires Symbols(p.stocks) <= AllocationSymbols(p.targetAllocation)
    requires Rebalance(p).Ok?
    ensures SumDiffValues(Rebalance(p).value) == 0.0
  {
    var m, alloc := p.stocks, p.targetAllocation;
    var total := TotalValue(m);
    var plan := Rebalance(p).value;
    RebalanceAimsAndTrades(p);
    TargetValuesScale(total, alloc, plan);
    CurrentAndDiffValues(m, alloc, plan);
    HeldUnderCoversTotal(m, alloc);
  }
}
