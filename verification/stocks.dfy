/**
 One held position of the portfolio (class `Stock` of Portfolio.py).

 Share counts and prices are Python floats in Portfolio.py; here they are exact
 reals, so the equalities stated about them hold mathematically rather than up
 to floating-point rounding.
 */
module Stocks {

  /** A ticker symbol, how many shares are held, and the price of one share. */
  datatype Stock = Stock(symbol: string, shares: real, currentPrice: real)
  {
    /** Market value of the position. The price is the factor that converts
        shares into money: dividing the value by a nonzero price gives the
        shares back, and the value vanishes exactly when nothing is held or
        the shares are worth nothing. */
    function Value(): (v: real)
      ensures currentPrice != 0.0 ==> v / currentPrice == shares
      ensures v == 0.0 <==> shares == 0.0 || currentPrice == 0.0
      ensures shares >= 0.0 && currentPrice >= 0.0 ==> v >= 0.0
    {
      shares * currentPrice
    }
  }
}
