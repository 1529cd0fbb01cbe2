/** The totals `displayHoldings` reports, and how each operation moves them. */
module Totals {
  import opened Int32
  import opened Sums
  import opened Ledger

  ghost function Investments(holdings: map<string, Holding>): (m: map<string, real>)
    ensures m.Keys == holdings.Keys
  {
    map symbol | symbol in holdings :: holdings[symbol].TotalInvestment()
  }

  ghost function Values(holdings: map<string, Holding>, stocks: map<string, real>): (m: map<string, real>)
    requires holdings.Keys <= stocks.Keys
    ensures m.Keys == holdings.Keys
  {
    map symbol | symbol in holdings :: holdings[symbol].CurrentValue(stocks[symbol])
  }

  /** Every holding has a non-negative count and purchase price. */
  ghost predicate NonNegativeBook(holdings: map<string, Holding>) {
    forall symbol :: symbol in holdings ==> holdings[symbol].shares >= 0 && holdings[symbol].purchasePrice >= 0.0
  }

  /** Total invested: shares times purchase price, summed over the holdings. */
  ghost function TotalInvested(holdings: map<string, Holding>): (r: real)
    ensures holdings == map[] ==> r == 0.0
    ensures NonNegativeBook(holdings) ==> r >= 0.0
  {
    SumNonNegative(holdings.Keys, Investments(holdings));
    Sum(holdings.Keys, Investments(holdings))
  }

  /** Current value: shares times the stock's current price, summed over the holdings. */
  ghost function TotalValue(holdings: map<string, Holding>, stocks: map<string, real>): (r: real)
    requires holdings.Keys <= stocks.Keys
    ensures holdings == map[] ==> r == 0.0
    ensures NonNegativeBook(holdings) && (forall symbol :: symbol in stocks ==> stocks[symbol] >= 0.0) ==> r >= 0.0
  {
    SumNonNegative(holdings.Keys, Values(holdings, stocks));
    Sum(holdings.Keys, Values(holdings, stocks))
  }

  /** Net profit/loss: current value minus total invested. It is zero when every
      held stock trades at its holding's purchase price. */
  ghost function NetProfitLoss(holdings: map<string, Holding>, stocks: map<string, real>): (r: real)
    requires holdings.Keys <= stocks.Keys
    ensures r + TotalInvested(holdings) == TotalValue(holdings, stocks)
    ensures (forall symbol :: symbol in holdings ==> stocks[symbol] == holdings[symbol].purchasePrice) ==> r == 0.0
  {
    assert (forall symbol :: symbol in holdings ==> stocks[symbol] == holdings[symbol].purchasePrice)
      ==> Values(holdings, stocks) == Investments(holdings);
    TotalValue(holdings, stocks) - TotalInvested(holdings)
  }

  // ----- how the operations move the totals -----

  /** Changing the position book at one symbol changes the total invested by the
      difference of that symbol's investment. */
  lemma InvestedChange(before: map<string, Holding>, after: map<string, Holding>, symbol: string)
    requires before - {symbol} == after - {symbol}
    ensures TotalInvested(after) == TotalInvested(before)
      - (if symbol in before then before[symbol].TotalInvestment() else 0.0)
      + (if symbol in after then after[symbol].TotalInvestment() else 0.0)
  {
    var a, b := Investments(before), Investments(after);
    forall k | k in before && k != symbol ensures k in b && a[k] == b[k] {
      assert k in (before - {symbol}).Keys;
      assert (before - {symbol})[k] == (after - {symbol})[k];
    }
    assert before.Keys - {symbol} == (before - {symbol}).Keys;
    assert after.Keys - {symbol} == (after - {symbol}).Keys;
    SumChange(before.Keys, a, after.Keys, b, symbol);
  }

  /** The same for the current value, with the catalog fixed. */
  lemma ValueChange(before: map<string, Holding>, after: map<string, Holding>, stocks: map<string, real>, symbol: string)
    requires before.Keys <= stocks.Keys && after.Keys <= stocks.Keys
    requires before - {symbol} == after - {symbol}
    ensures TotalValue(after, stocks) == TotalValue(before, stocks)
      - (if symbol in before then before[symbol].CurrentValue(stocks[symbol]) else 0.0)
      + (if symbol in after then after[symbol].CurrentValue(stocks[symbol]) else 0.0)
  {
    var a, b := Values(before, stocks), Values(after, stocks);
    forall k | k in before && k != symbol ensures k in b && a[k] == b[k] {
      assert k in (before - {symbol}).Keys;
      assert (before - {symbol})[k] == (after - {symbol})[k];
    }
    assert before.Keys - {symbol} == (before - {symbol}).Keys;
    assert after.Keys - {symbol} == (after - {symbol}).Keys;
    SumChange(before.Keys, a, after.Keys, b, symbol);
  }

  /** Java's `int * double` distributes over a share count's change. */
  lemma AmountSplit(whole: int32, part: int32, price: real)
    requires InRange(whole - part)
    ensures Amount(whole, price) == Amount((whole - part) as int32, price) + Amount(part, price)
  {
  }

  /** A buy adds `shares` times the position's purchase price to the total invested:
      the caller's price for a new position, but the ORIGINAL purchase price for an
      existing one, so a repeated buy at another price is not valued at what was
      paid. The market value grows by `shares` at the catalog price. */
  lemma BuyTotals(s: AccountState, symbol: string, shares: int32, purchasePrice: real)
    requires Linked(s) && BuyStock(s, symbol, shares, purchasePrice).Ok?
    requires symbol in s.holdings ==> InRange(s.holdings[symbol].shares + shares)
    ensures var t := BuyStock(s, symbol, shares, purchasePrice).value;
      var basis := if symbol in s.holdings then s.holdings[symbol].purchasePrice else purchasePrice;
      && TotalInvested(t.holdings) == TotalInvested(s.holdings) + Amount(shares, basis)
      && TotalValue(t.holdings, t.stocks) == TotalValue(s.holdings, s.stocks) + Amount(shares, s.stocks[symbol])
  {
    var t := BuyStock(s, symbol, shares, purchasePrice).value;
    InvestedChange(s.holdings, t.holdings, symbol);
    ValueChange(s.holdings, t.holdings, s.stocks, symbol);
    if symbol in s.holdings {
      var h := s.holdings[symbol];
      var n: int32 := h.shares + shares;
      assert t.holdings[symbol] == Holding(n, h.purchasePrice);
      AmountSplit(n, shares, h.purchasePrice);
      AmountSplit(n, shares, s.stocks[symbol]);
    }
  }

  /** Buying a stock not yet held moves exactly the cost from cash into the total
      invested. */
  lemma BuyNewPositionConserves(s: AccountState, symbol: string, shares: int32, purchasePrice: real)
    requires Linked(s) && symbol !in s.holdings && BuyStock(s, symbol, shares, purchasePrice).Ok?
    ensures var t := BuyStock(s, symbol, shares, purchasePrice).value;
      t.balance + TotalInvested(t.holdings) == s.balance + TotalInvested(s.holdings)
  {
    BuyTotals(s, symbol, shares, purchasePrice);
  }

  /** A sale takes `shares` at the purchase price off the total invested and `shares`
      at the current price off the market value, so cash plus market value is
      unchanged. */
  lemma SellTotals(s: AccountState, symbol: string, shares: int32)
    requires Linked(s) && SellStock(s, symbol, shares).Ok?
    requires InRange(s.holdings[symbol].shares - shares)
    ensures var t := SellStock(s, symbol, shares).value;
      var h := s.holdings[symbol];
      && TotalInvested(t.holdings) == TotalInvested(s.holdings) - Amount(shares, h.purchasePrice)
      && TotalValue(t.holdings, t.stocks) == TotalValue(s.holdings, s.stocks) - Amount(shares, s.stocks[symbol])
      && t.balance + TotalValue(t.holdings, t.stocks) == s.balance + TotalValue(s.holdings, s.stocks)
  {
    var t := SellStock(s, symbol, shares).value;
    var h := s.holdings[symbol];
    InvestedChange(s.holdings, t.holdings, symbol);
    ValueChange(s.holdings, t.holdings, s.stocks, symbol);
    AmountSplit(h.shares, shares, h.purchasePrice);
    AmountSplit(h.shares, shares, s.stocks[symbol]);
  }
}
