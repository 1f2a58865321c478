/**
 The worked example at the bottom of Portfolio.py: 30 META shares at 400 and
 10 AAPL shares at 200, rebalanced towards 40% META and 60% AAPL.
 */
module Example {
  import opened Stocks
  import opened StockMaps
  import opened Rebalancing
  import opened Conservation

  const Meta := Stock("META", 30.0, 400.0)
  const Aapl := Stock("AAPL", 10.0, 200.0)
  const Holdings := [Meta, Aapl]
  const Targets := [Target("META", 0.4), Target("AAPL", 0.6)]

  const MetaPlan := Adjustment("META", 12000.0, 5600.0, -6400.0, -16.0, Sell)
  const AaplPlan := Adjustment("AAPL", 2000.0, 8400.0, 6400.0, 32.0, Buy)

  lemma ExampleHoldings()
    ensures NewPortfolio(Holdings, Targets).stocks == Holdings
    ensures TotalValue(Holdings) == 14000.0
  {
    assert DistinctSymbols(Holdings);
    BuildStockMapOfDistinct(Holdings);
  }

  lemma ExampleEntries()
    ensures Adjust(Holdings, 14000.0, Targets[0]) == Ok(MetaPlan)
    ensures Adjust(Holdings, 14000.0, Targets[1]) == Ok(AaplPlan)
  {
    assert Lookup(Holdings, "META") == Some(Meta);
    assert Lookup(Holdings, "AAPL") == Some(Aapl);
  }

  /** Total 14000; META is sold down by 6400 (16 shares) to 5600 and AAPL is
      bought up by 6400 (32 shares) to 8400. */
  lemma ExamplePlan()
    ensures Rebalance(NewPortfolio(Holdings, Targets)) == Ok([MetaPlan, AaplPlan])
  {
    ExampleHoldings();
    ExampleEntries();
    var tail := Targets[1..];
    assert tail[0] == Targets[1] && tail[1..] == [];
    assert AdjustAll(Holdings, 14000.0, tail[1..]) == Ok([]);
    assert [AaplPlan] + [] == [AaplPlan];
    assert AdjustAll(Holdings, 14000.0, Targets[1..]) == Ok([AaplPlan]);
    assert AdjustAll(Holdings, 14000.0, tail) == Ok([AaplPlan]);
    assert Adjust(Holdings, 14000.0, Targets[0]) == Ok(MetaPlan);
    assert [MetaPlan] + [AaplPlan] == [MetaPlan, AaplPlan];
    assert AdjustAll(Holdings, 14000.0, Targets) == Ok([MetaPlan, AaplPlan]);
  }

  /** The example meets the conditions of `DiffValuesCancel`, so its two
      trades balance. */
  lemma ExampleBalances()
    ensures Rebalance(NewPortfolio(Holdings, Targets)).Ok?
    ensures SumDiffValues(Rebalance(NewPortfolio(Holdings, Targets)).value) == 0.0
  {
    ExampleHoldings();
    ExamplePlan();
    var tail := Targets[1..];
    assert tail[0] == Targets[1] && tail[1..] == [];
    assert SumPct(tail) == 0.6;
    assert SumPct(Targets) == 1.0;
    assert Targets[0].symbol in AllocationSymbols(Targets) && tail[0].symbol in AllocationSymbols(Targets);
    assert Symbols(Holdings) == {"META", "AAPL"};
    DiffValuesCancel(NewPortfolio(Holdings, Targets));
  }
}
