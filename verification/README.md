# Portfolio rebalancing, modelled in Dafny

A model of `Portfolio.py`. That file is a small, pure calculation. A `Stock`
holds a symbol, a share count and a current price. A `Portfolio` turns a
list of stocks into a symbol-keyed map and keeps a target allocation, a
dict from symbol to target fraction. `rebalance` then says, for every symbol
of the target allocation:

- the value held now;
- the value wanted;
- the difference in money and in shares;
- whether to BUY, SELL or HOLD.

All quantities are exact `real`s rather than Python floats. Python dicts keep
insertion order, so both dicts are modelled as sequences with distinct keys.

| file | module | models |
|---|---|---|
| `stocks.dfy` | `Stocks` | `Stock` and its `value` |
| `stock_map.dfy` | `StockMaps` | the symbol-keyed map built by `Portfolio.__init__`, `dict.get`, `total_value` |
| `rebalance.dfy` | `Rebalancing` | `Portfolio`, the allocation, the per-symbol adjustment record, `rebalance` |
| `conservation.dfy` | `Conservation` | what the plan conserves when the fractions add up to 1 |
| `example.dfy` | `Example` | the worked example at the end of `Portfolio.py` |

Behaviour of the code worth knowing:

- `rebalance` loops over the target allocation, not over the holdings
  (Portfolio.py:35). A held symbol that the allocation does not mention gets
  no entry in the result.
- The rule that the fractions add up to 1 is only a docstring
  (Portfolio.py:17). Nothing checks it. The conservation lemmas take it as a
  precondition.
- Prices and share counts are never validated. A targeted symbol held at
  price 0 makes the division at Portfolio.py:40 raise `ZeroDivisionError`.
  The model returns `Err(ZeroDivision(symbol))` for the first such symbol in
  allocation order. Negative prices and share counts go through unchecked.
- A targeted symbol that is not held gets `diff_shares = target_value / 1`
  (Portfolio.py:40). Its comment says it assumes a price of 1.
  That is a placeholder, not a price, but it is what the code does, and the
  model keeps it.
- Prices are inputs to `Stock`; the code never fetches them.

## Model

| member | source | states |
|---|---|---|
| `Stocks.Stock.Value` | Portfolio.py:7-10 | a position's value turns back into its share count when divided by a nonzero price; it is 0 exactly when no shares are held or the price is 0; it is nonnegative when shares and price are. Together these fix it as shares × price |
| `StockMaps.Lookup` | Portfolio.py:36 | `dict.get` finds an entry exactly when the symbol is a key, and the stock it returns carries that symbol |
| `StockMaps.LookupDistinct` | Portfolio.py:36 | with distinct keys, `dict.get` returns the entry stored under the symbol |
| `StockMaps.Put` | Portfolio.py:20 | one dict assignment `m[s.symbol] = s` adds `s.symbol` to the keys and nothing else, keeps keys distinct, and appends when the key is new |
| `StockMaps.LookupPutSame` | Portfolio.py:20 | after `m[s.symbol] = s`, looking up `s.symbol` gives `s` |
| `StockMaps.LookupPutOther` | Portfolio.py:20 | `m[s.symbol] = s` leaves the entry of every other symbol unchanged |
| `StockMaps.PutKeepsPositions` | Portfolio.py:20 | an assignment to an existing key keeps the map's length and every key's position; a new key only lengthens it |
| `StockMaps.BuildStockMap` | Portfolio.py:20 | the comprehension yields a map with one entry per symbol, whose key set is exactly the set of symbols in the list |
| `StockMaps.BuildStockMapLastWins` | Portfolio.py:20 | with duplicate symbols, the map holds the last stock in the list that carries the symbol |
| `StockMaps.BuildStockMapKeepsFirstOccurrenceOrder` | Portfolio.py:20 | the map iterates its keys in the order in which their symbols first occur in the list (dict insertion order) |
| `StockMaps.BuildStockMapOfDistinct` | Portfolio.py:20 | a list without repeated symbols becomes a map that is that same list |
| `StockMaps.TotalValue` | Portfolio.py:23-25 | the total value of an empty portfolio is 0, and it is nonnegative when every share count and price is |
| `StockMaps.SumValues` | Portfolio.py:25 | Python's left-to-right `sum` over the map's values computes the total value |
| `StockMaps.TotalValuePut` | Portfolio.py:20-25 | each assignment while building the map changes the total by the new stock's value minus the value it replaces (0 for a new symbol) |
| `Rebalancing.NewPortfolio` | Portfolio.py:14-21 | construction keys the stocks by symbol (distinct keys, the same symbols, last duplicate wins) and stores the allocation unchanged and unvalidated |
| `Rebalancing.ActionFor` | Portfolio.py:47 | the action is BUY exactly when the value delta is positive, SELL exactly when it is negative, HOLD exactly when it is 0 |
| `Rebalancing.Adjust` | Portfolio.py:36-48 | one loop iteration fails exactly when the symbol is held at price 0 (naming that symbol); otherwise its entry starts from the held value (0 if not held) and aims at total × fraction. Trading its value delta reaches the target, and so does trading its share delta at the current price (price 1 if not held). The action names the delta's sign |
| `Rebalancing.AdjustAll` | Portfolio.py:33-50 | the loop succeeds exactly when no targeted symbol is held at price 0, and then gives one entry per allocation entry, in order, each with the meaning above; on failure the error names the first such symbol in allocation order |
| `Rebalancing.Rebalance` | Portfolio.py:27-50 | `rebalance` computes the total once and then gives the same per-entry result as the loop, against that total; it succeeds exactly when no targeted symbol is held at price 0 |
| `Rebalancing.RealizesDetermines` | Portfolio.py:36-47 | the meaning of an entry determines it: two entries that both meet it for the same target are equal |
| `Rebalancing.RebalanceKeys` | Portfolio.py:33-35 | the plan has exactly the allocation's symbols, in its order; a held symbol missing from the allocation gets no entry; distinct allocation keys give distinct plan keys |
| `Rebalancing.HeldDiffShares` | Portfolio.py:37-40 | for a held symbol, an entry meeting its target has current value shares × price and share delta × price = value delta |
| `Rebalancing.HeldPlanShares` | Portfolio.py:36-40 | in a successful plan, a targeted symbol that is held has a nonzero price, its current value is shares × price, and its share delta is its value delta divided by that price |
| `Rebalancing.UnheldTarget` | Portfolio.py:37-40 | for a targeted symbol that is not held: current value 0, value delta = share delta = target value, and BUY exactly when the target value is positive |
| `Conservation.TargetValuesScale` | Portfolio.py:35-38 | the entries' target values add up to total × (sum of the fractions) |
| `Conservation.CurrentAndDiffValues` | Portfolio.py:36-39 | the entries' current values add up to the value held under the allocation's symbols, and the value deltas add up to the target sum minus the current sum |
| `Conservation.HeldUnderCoversTotal` | Portfolio.py:23-25 | when every held symbol is in the allocation, the value held under the allocation's symbols is the total value |
| `Conservation.TargetValuesConserveTotal` | Portfolio.py:17 | if the fractions add up to 1, the target values add up to the portfolio's total value |
| `Conservation.DiffValuesCancel` | Portfolio.py:17 | if the fractions add up to 1 and every held symbol is targeted (in particular when the allocation's keys are exactly the held symbols), the plan's value deltas add up to 0: buys and sells balance |
| `Example.ExamplePlan` | Portfolio.py:55-63 | META 30 at 400 and AAPL 10 at 200 aimed at 40%/60% give META SELL 16 shares (−6400, to 5600) and AAPL BUY 32 shares (+6400, to 8400) |
| `Example.ExampleBalances` | Portfolio.py:55-63 | rebalancing the example portfolio succeeds and its value deltas add up to 0, as the conservation lemma predicts |

## Left out

- The `__main__` printing loop (Portfolio.py:65-67) is console output only. Its inputs are used as the example.
- Floating point: every quantity is an exact real. The HOLD case and the conservation equalities hold mathematically. Float rounding is not modelled.
- Python's `ZeroDivisionError` is modelled as an error result, not as an exception. With the float inputs the signatures declare, it is the only exception. Python also accepts int share counts and prices, and ints too large for a float raise `OverflowError` at the float conversions of Portfolio.py:38-40. That lies outside the real-number model.
- Duplicate keys in the target allocation cannot occur in a Python dict. Lemmas that need distinct keys require `DistinctTargets`. `Rebalance` itself does not need them.
- Prices are plain inputs: the code does no price retrieval, so the model has none.
