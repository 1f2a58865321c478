/**
 The symbol-keyed map of holdings that `Portfolio.__init__` builds from its
 list of stocks, and `Portfolio.total_value` over it.

 A Python dict remembers insertion order, so the map is an ordered sequence
 of stocks with pairwise distinct symbols; each entry's key is the stock's own
 symbol, exactly as in the comprehension `{s.symbol: s for s in stocks}`.
 */
module StockMaps {
  import opened Stocks

  datatype Option<T> = None | Some(value: T)

  /** Insertion-ordered dict from symbol to the stock carrying that symbol. */
  type StockMap = seq<Stock>

  predicate DistinctSymbols(m: seq<Stock>)
  {
    forall i, j :: 0 <= i < j < |m| ==> m[i].symbol != m[j].symbol
  }

  function Symbols(m: seq<Stock>): (keys: set<string>)
  {
    set i | 0 <= i < |m| :: m[i].symbol
  }

  lemma SymbolsCons(s: Stock, m: seq<Stock>)
    ensures Symbols([s] + m) == {s.symbol} + Symbols(m)
  {
    var c := [s] + m;
    forall k | k in Symbols(c) ensures k in {s.symbol} + Symbols(m) {
      var i :| 0 <= i < |c| && c[i].symbol == k;
      if i > 0 { assert c[i] == m[i - 1]; }
    }
    forall k | k in Symbols(m) ensures k in Symbols(c) {
      var i :| 0 <= i < |m| && m[i].symbol == k;
      assert c[i + 1] == m[i];
    }
    assert c[0] == s;
  }

  lemma SymbolsSnoc(m: seq<Stock>, s: Stock)
    ensures Symbols(m + [s]) == Symbols(m) + {s.symbol}
  {
    var c := m + [s];
    forall k | k in Symbols(c) ensures k in Symbols(m) + {s.symbol} {
      var i :| 0 <= i < |c| && c[i].symbol == k;
      if i < |m| { assert c[i] == m[i]; }
    }
    forall k | k in Symbols(m) ensures k in Symbols(c) {
      var i :| 0 <= i < |m| && m[i].symbol == k;
      assert c[i] == m[i];
    }
    assert c[|m|] == s;
  }

  lemma DistinctCons(s: Stock, m: seq<Stock>)
    ensures DistinctSymbols([s] + m) <==> s.symbol !in Symbols(m) && DistinctSymbols(m)
  {
    var c := [s] + m;
    if s.symbol !in Symbols(m) && DistinctSymbols(m) {
      forall i, j | 0 <= i < j < |c| ensures c[i].symbol != c[j].symbol {
        assert c[j] == m[j - 1];
        if i > 0 { assert c[i] == m[i - 1]; }
      }
    }
    if DistinctSymbols(c) {
      forall i, j | 0 <= i < j < |m| ensures m[i].symbol != m[j].symbol {
        assert c[i + 1] == m[i] && c[j + 1] == m[j];
      }
      forall k | k in Symbols(m) ensures k != s.symbol {
        var i :| 0 <= i < |m| && m[i].symbol == k;
        assert c[0] == s && c[i + 1] == m[i];
      }
    }
  }

  /** `m.get(symbol)`: the entry stored under `symbol`, if any. */
  function Lookup(m: StockMap, symbol: string): (r: Option<Stock>)
    ensures r.Some? <==> symbol in Symbols(m)
    ensures r.Some? ==> r.value.symbol == symbol
  {
    if |m| == 0 then None
    else if m[0].symbol == symbol then Some(m[0])
    else
      assert m == [m[0]] + m[1..];
      SymbolsCons(m[0], m[1..]);
      Lookup(m[1..], symbol)
  }

  /** With distinct keys, the entry found under a symbol is the one stored there. */
  lemma {:induction false} LookupDistinct(m: StockMap, i: int)
    requires DistinctSymbols(m) && 0 <= i < |m|
    ensures Lookup(m, m[i].symbol) == Some(m[i])
  {
    if i > 0 {
      assert m[1..][i - 1] == m[i];
      assert DistinctSymbols(m[1..]);
      LookupDistinct(m[1..], i - 1);
    }
  }

  /** The value held under `symbol`, or 0 when the symbol is not held. */
  function CurrentValue(m: StockMap, symbol: string): (v: real)
  {
    match Lookup(m, symbol)
    case Some(s) => s.Value()
    case None => 0.0
  }

  /** The dict assignment `m[s.symbol] = s`: an existing key keeps its place
      and gets the new stock, a new key goes to the end. */
  function Put(m: StockMap, s: Stock): (r: StockMap)
    ensures Symbols(r) == Symbols(m) + {s.symbol}
    ensures DistinctSymbols(m) ==> DistinctSymbols(r)
    ensures s.symbol !in Symbols(m) ==> r == m + [s]
  {
    if |m| == 0 then
      SymbolsCons(s, []);
      DistinctCons(s, []);
      [s]
    else
      assert m == [m[0]] + m[1..];
      SymbolsCons(m[0], m[1..]);
      DistinctCons(m[0], m[1..]);
      if m[0].symbol == s.symbol then
        SymbolsCons(s, m[1..]);
        DistinctCons(s, m[1..]);
        [s] + m[1..]
      else
        var rest := Put(m[1..], s);
        SymbolsCons(m[0], rest);
        DistinctCons(m[0], rest);
        assert s.symbol !in Symbols(m) ==> [m[0]] + rest == [m[0]] + (m[1..] + [s]) == m + [s];
        [m[0]] + rest
  }

  /** After `m[s.symbol] = s`, the symbol is found with `s`. */
  lemma {:induction false} LookupPutSame(m: StockMap, s: Stock)
    ensures Lookup(Put(m, s), s.symbol) == Some(s)
  {
    if |m| > 0 && m[0].symbol != s.symbol {
      LookupPutSame(m[1..], s);
    }
  }

  /** `m[s.symbol] = s` leaves every other symbol's entry as it was. */
  lemma {:induction false} LookupPutOther(m: StockMap, s: Stock, k: string)
    requires k != s.symbol
    ensures Lookup(Put(m, s), k) == Lookup(m, k)
  {
    if |m| > 0 && m[0].symbol != s.symbol {
      LookupPutOther(m[1..], s, k);
    }
  }

  /** Existing keys keep their positions; only a new key lengthens the map. */
  lemma {:induction false} PutKeepsPositions(m: StockMap, s: Stock)
    ensures |m| <= |Put(m, s)|
    ensures s.symbol in Symbols(m) ==> |Put(m, s)| == |m|
    ensures forall i :: 0 <= i < |m| ==> Put(m, s)[i].symbol == m[i].symbol
  {
    if |m| > 0 {
      assert m == [m[0]] + m[1..];
      SymbolsCons(m[0], m[1..]);
      if m[0].symbol != s.symbol {
        PutKeepsPositions(m[1..], s);
      }
    }
  }

  /** The comprehension `{s.symbol: s for s in stocks}`: one assignment per
      stock, from the first to the last. */
  function BuildStockMap(stocks: seq<Stock>): (r: StockMap)
    ensures DistinctSymbols(r)
    ensures Symbols(r) == Symbols(stocks)
  {
    if |stocks| == 0 then []
    else
      var n := |stocks|;
      assert stocks == stocks[..n - 1] + [stocks[n - 1]];
      SymbolsSnoc(stocks[..n - 1], stocks[n - 1]);
      Put(BuildStockMap(stocks[..n - 1]), stocks[n - 1])
  }

  /** No later stock in the list carries the symbol of `stocks[i]`. */
  predicate IsLastOccurrence(stocks: seq<Stock>, i: int)
    requires 0 <= i < |stocks|
  {
    forall j :: i < j < |stocks| ==> stocks[j].symbol != stocks[i].symbol
  }

  lemma LastOccurrenceInPrefix(stocks: seq<Stock>, i: int)
    requires 0 <= i < |stocks| - 1 && IsLastOccurrence(stocks, i)
    ensures stocks[..|stocks| - 1][i] == stocks[i]
    ensures IsLastOccurrence(stocks[..|stocks| - 1], i)
  {
  }

  lemma BuildStockMapLastElement(stocks: seq<Stock>)
    requires |stocks| > 0
    ensures Lookup(BuildStockMap(stocks), stocks[|stocks| - 1].symbol) == Some(stocks[|stocks| - 1])
  {
    var n := |stocks|;
    LookupPutSame(BuildStockMap(stocks[..n - 1]), stocks[n - 1]);
  }

  /** Duplicate symbols: the last stock in the list carrying a symbol is the one
      the map keeps. */
  lemma {:induction false} BuildStockMapLastWins(stocks: seq<Stock>, i: int)
    requires 0 <= i < |stocks| && IsLastOccurrence(stocks, i)
    ensures Lookup(BuildStockMap(stocks), stocks[i].symbol) == Some(stocks[i])
  {
    var n := |stocks|;
    var prefix := stocks[..n - 1];
    var last := stocks[n - 1];
    if i < n - 1 {
      assert BuildStockMap(stocks) == Put(BuildStockMap(prefix), last);
      LastOccurrenceInPrefix(stocks, i);
      BuildStockMapLastWins(prefix, i);
      LookupPutOther(BuildStockMap(prefix), last, stocks[i].symbol);
    } else {
      BuildStockMapLastElement(stocks);
    }
  }

  /** When no symbol is repeated, building the map changes nothing. */
  lemma {:induction false} BuildStockMapOfDistinct(stocks: seq<Stock>)
    requires DistinctSymbols(stocks)
    ensures BuildStockMap(stocks) == stocks
  {
    if |stocks| > 0 {
      var n := |stocks|;
      var prefix := stocks[..n - 1];
      assert DistinctSymbols(prefix);
      BuildStockMapOfDistinct(prefix);
      assert stocks[n - 1].symbol !in Symbols(prefix);
      assert prefix + [stocks[n - 1]] == stocks;
    }
  }

  /** Position of the first stock in the list carrying `symbol`. */
  function FirstIndex(stocks: seq<Stock>, symbol: string): (i: nat)
    requires symbol in Symbols(stocks)
    ensures i < |stocks| && stocks[i].symbol == symbol
    ensures forall j :: 0 <= j < i ==> stocks[j].symbol != symbol
  {
    if stocks[0].symbol == symbol then 0
    else
      assert stocks == [stocks[0]] + stocks[1..];
      SymbolsCons(stocks[0], stocks[1..]);
      1 + FirstIndex(stocks[1..], symbol)
  }

  lemma FirstIndexOfPrefix(stocks: seq<Stock>, symbol: string)
    requires |stocks| > 0 && symbol in Symbols(stocks[..|stocks| - 1])
    ensures symbol in Symbols(stocks)
    ensures FirstIndex(stocks, symbol) == FirstIndex(stocks[..|stocks| - 1], symbol)
  {
  }

  lemma FirstIndexOfNewSymbol(stocks: seq<Stock>)
    requires |stocks| > 0 && stocks[|stocks| - 1].symbol !in Symbols(stocks[..|stocks| - 1])
    ensures stocks[|stocks| - 1].symbol in Symbols(stocks)
    ensures FirstIndex(stocks, stocks[|stocks| - 1].symbol) == |stocks| - 1
  {
    var n := |stocks|;
    var prefix := stocks[..n - 1];
    forall j | 0 <= j < n - 1 ensures stocks[j].symbol != stocks[n - 1].symbol {
      assert stocks[j] == prefix[j];
      assert prefix[j].symbol in Symbols(prefix);
    }
  }

  lemma FirstIndexOfPrefixKey(stocks: seq<Stock>, i: int)
    requires |stocks| > 0 && 0 <= i < |BuildStockMap(stocks[..|stocks| - 1])|
    ensures BuildStockMap(stocks[..|stocks| - 1])[i].symbol in Symbols(stocks)
    ensures FirstIndex(stocks, BuildStockMap(stocks[..|stocks| - 1])[i].symbol) < |stocks| - 1
  {
    var before := BuildStockMap(stocks[..|stocks| - 1]);
    assert before[i].symbol in Symbols(before);
    FirstIndexOfPrefix(stocks, before[i].symbol);
  }

  /** Keys of `r` appear in the order in which their symbols first occur in `stocks`. */
  predicate InFirstOccurrenceOrder(stocks: seq<Stock>, r: StockMap)
  {
    forall i, j :: 0 <= i < j < |r| ==>
      r[i].symbol in Symbols(stocks) && r[j].symbol in Symbols(stocks) &&
      FirstIndex(stocks, r[i].symbol) < FirstIndex(stocks, r[j].symbol)
  }

  lemma FirstOccurrenceOrderStepKept(stocks: seq<Stock>, i: int, j: int)
    requires |stocks| > 0
    requires InFirstOccurrenceOrder(stocks[..|stocks| - 1], BuildStockMap(stocks[..|stocks| - 1]))
    requires 0 <= i < j < |BuildStockMap(stocks[..|stocks| - 1])|
    ensures var r := BuildStockMap(stocks);
      j < |r| && r[i].symbol in Symbols(stocks) && r[j].symbol in Symbols(stocks) &&
      FirstIndex(stocks, r[i].symbol) < FirstIndex(stocks, r[j].symbol)
  {
    var prefix := stocks[..|stocks| - 1];
    var before := BuildStockMap(prefix);
    var r := BuildStockMap(stocks);
    assert r == Put(before, stocks[|stocks| - 1]);
    PutKeepsPositions(before, stocks[|stocks| - 1]);
    assert r[i].symbol == before[i].symbol && r[j].symbol == before[j].symbol;
    assert before[i].symbol in Symbols(before) && before[j].symbol in Symbols(before);
    FirstIndexOfPrefix(stocks, before[i].symbol);
    FirstIndexOfPrefix(stocks, before[j].symbol);
  }

  lemma BuildStockMapGrows(stocks: seq<Stock>)
    requires |stocks| > 0
    requires |BuildStockMap(stocks[..|stocks| - 1])| < |BuildStockMap(stocks)|
    ensures stocks[|stocks| - 1].symbol !in Symbols(stocks[..|stocks| - 1])
    ensures BuildStockMap(stocks) == BuildStockMap(stocks[..|stocks| - 1]) + [stocks[|stocks| - 1]]
  {
    var before := BuildStockMap(stocks[..|stocks| - 1]);
    assert BuildStockMap(stocks) == Put(before, stocks[|stocks| - 1]);
    PutKeepsPositions(before, stocks[|stocks| - 1]);
  }

  lemma FirstOccurrenceOrderStepAppended(stocks: seq<Stock>, i: int, j: int)
    requires |stocks| > 0
    requires |BuildStockMap(stocks[..|stocks| - 1])| <= j
    requires 0 <= i < j < |BuildStockMap(stocks)|
    ensures var r := BuildStockMap(stocks);
      r[i].symbol in Symbols(stocks) && r[j].symbol in Symbols(stocks) &&
      FirstIndex(stocks, r[i].symbol) < FirstIndex(stocks, r[j].symbol)
  {
    BuildStockMapGrows(stocks);
    var before := BuildStockMap(stocks[..|stocks| - 1]);
    var r := BuildStockMap(stocks);
    assert r[j] == stocks[|stocks| - 1] && r[i] == before[i];
    FirstIndexOfNewSymbol(stocks);
    FirstIndexOfPrefixKey(stocks, i);
  }

  /** Iteration order of the map: keys appear in the order in which their
      symbols first occur in the list, as a Python dict keeps them. */
  lemma {:induction false} BuildStockMapKeepsFirstOccurrenceOrder(stocks: seq<Stock>)
    ensures InFirstOccurrenceOrder(stocks, BuildStockMap(stocks))
  {
    var n := |stocks|;
    if n > 0 {
      BuildStockMapKeepsFirstOccurrenceOrder(stocks[..n - 1]);
      forall i, j | 0 <= i < j < |BuildStockMap(stocks)|
        ensures var r := BuildStockMap(stocks);
          r[i].symbol in Symbols(stocks) && r[j].symbol in Symbols(stocks) &&
          FirstIndex(stocks, r[i].symbol) < FirstIndex(stocks, r[j].symbol)
      {
        if j < |BuildStockMap(stocks[..n - 1])| {
          FirstOccurrenceOrderStepKept(stocks, i, j);
        } else {
          FirstOccurrenceOrderStepAppended(stocks, i, j);
        }
      }
    }
  }

  /** `Portfolio.total_value`: the sum of the values of the held stocks. */
  function TotalValue(m: StockMap): (t: real)
    ensures m == [] ==> t == 0.0
    ensures (forall i :: 0 <= i < |m| ==> m[i].shares >= 0.0 && m[i].currentPrice >= 0.0) ==> t >= 0.0
  {
    if |m| == 0 then 0.0 else m[0].Value() + TotalValue(m[1..])
  }

  lemma {:induction false} TotalValueAppend(m: StockMap, s: Stock)
    ensures TotalValue(m + [s]) == TotalValue(m) + s.Value()
  {
    if |m| > 0 {
      assert (m + [s])[1..] == m[1..] + [s];
      TotalValueAppend(m[1..], s);
    }
  }

  /** Python's `sum` over the map's values, accumulated left to right. */
  method SumValues(m: StockMap) returns (total: real)
    ensures total == TotalValue(m)
  {
    total := 0.0;
    var i := 0;
    while i < |m|
      invariant 0 <= i <= |m|
      invariant total == TotalValue(m[..i])
    {
      assert m[..i + 1] == m[..i] + [m[i]];
      TotalValueAppend(m[..i], m[i]);
      total := total + m[i].Value();
      i := i + 1;
    }
    assert m[..i] == m;
  }

  /** The held value moves by exactly what one assignment `m[s.symbol] = s`
      replaces: the old entry's value (0 if there was none) goes out and the
      new stock's value comes in. */
  lemma {:induction false} TotalValuePut(m: StockMap, s: Stock)
    requires DistinctSymbols(m)
    ensures TotalValue(Put(m, s)) == TotalValue(m) - CurrentValue(m, s.symbol) + s.Value()
  {
    if |m| == 0 {
    } else if m[0].symbol == s.symbol {
      assert Put(m, s) == [s] + m[1..];
      assert ([s] + m[1..])[1..] == m[1..];
    } else {
      assert DistinctSymbols(m[1..]);
      TotalValuePut(m[1..], s);
      assert Put(m, s)[1..] == Put(m[1..], s);
      assert m == [m[0]] + m[1..];
      assert Lookup(m, s.symbol) == Lookup(m[1..], s.symbol);
    }
  }
}
