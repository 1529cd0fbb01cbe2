/** The bookkeeping of one brokerage account as values: the catalog of stocks, the
    position book, the cash balance and the transaction history, and the operations
    `addFunds`, `addStock`, `buyStock` and `sellStock` as functions from the state
    before to the state after (or to the reason the operation was rejected). */
module Ledger {
  import opened Int32
  import opened Sums

  datatype Option<T> = None | Some(value: T)

  /** A tradable stock: its symbol and current price. */
  datatype Stock = Stock(symbol: string, price: real)

  /** A position: a share count and the price per share of the original purchase. */
  datatype Holding = Holding(shares: int32, purchasePrice: real) {
    /** `addShares`: the count grows by `n` as a Java `int`; the purchase price is kept. */
    function AddShares(n: int32): (h: Holding)
      ensures h.purchasePrice == purchasePrice
      ensures InRange(shares + n) ==> h.shares == shares + n
      ensures (shares + n - h.shares) % MODULUS == 0
    {
      Holding(Wrap(shares + n), purchasePrice)
    }

    /** `getTotalInvestment`: the position valued at its purchase price, which is
        never negative for a non-negative count and price. */
    function TotalInvestment(): (r: real)
      ensures r == CurrentValue(purchasePrice)
      ensures shares == 0 ==> r == 0.0
      ensures shares >= 0 && purchasePrice >= 0.0 ==> r >= 0.0
    {
      CurrentValue(purchasePrice)
    }

    /** `getCurrentValue`: the position valued at the stock's current price. */
    function CurrentValue(price: real): (r: real)
      ensures shares == 0 ==> r == 0.0
      ensures shares >= 0 && price >= 0.0 ==> r >= 0.0
      ensures shares > 0 && price > 0.0 ==> r > 0.0
    {
      AmountSign(shares, price);
      Amount(shares, price)
    }
  }

  datatype Kind = Deposit | Buy | Sell

  /** One entry of the history; `balanceAfter` is the balance when it was made. */
  datatype Transaction = Transaction(
    kind: Kind, stock: Option<string>, shares: int32, price: real,
    totalCost: real, balanceAfter: real)

  /** Why `buyStock` or `sellStock` did nothing. */
  datatype Error = StockNotFound | InsufficientFunds | NoHoldings | NotEnoughShares

  datatype Result<T> = Ok(value: T) | Err(error: Error)

  datatype AccountState = AccountState(
    balance: real,
    holdings: map<string, Holding>,
    stocks: map<string, real>,
    history: seq<Transaction>)

  /** Java's `int * double`: the share count converted exactly, times the price. */
  function Amount(shares: int32, price: real): real {
    shares as real * price
  }

  /** The sign of `shares * price` follows the signs of its factors. */
  lemma AmountSign(shares: int32, price: real)
    ensures shares >= 0 && price >= 0.0 ==> Amount(shares, price) >= 0.0
    ensures shares > 0 && price > 0.0 ==> Amount(shares, price) > 0.0
  {
    if shares > 0 && price > 0.0 {
      assert shares as real * price > 0.0 * price;
    }
  }

  function Last(history: seq<Transaction>): Transaction
    requires history != []
  {
    history[|history| - 1]
  }

  /** A freshly constructed account. */
  function Initial(): (s: AccountState)
    ensures s.balance == 0.0 && s.holdings == map[] && s.stocks == map[] && s.history == []
  {
    AccountState(0.0, map[], map[], [])
  }

  // ----- invariants -----

  /** Every held symbol is a catalog stock (a Java holding refers to its Stock). */
  predicate Linked(s: AccountState) {
    s.holdings.Keys <= s.stocks.Keys
  }

  /** The balance is the one the newest record reports, or 0 before any record. */
  predicate Recorded(s: AccountState) {
    if s.history == [] then s.balance == 0.0 else Last(s.history).balanceAfter == s.balance
  }

  predicate Consistent(s: AccountState) {
    Linked(s) && Recorded(s)
  }

  /** No holding with a zero or negative share count is in the position book. */
  predicate PositiveHoldings(holdings: map<string, Holding>) {
    forall symbol :: symbol in holdings ==> holdings[symbol].shares > 0
  }

  // ----- operations -----

  /** `addFunds`: the amount is not validated, so a negative deposit lowers the balance. */
  function AddFunds(s: AccountState, amount: real): (r: AccountState)
    ensures r.balance == s.balance + amount
    ensures r.history == s.history + [Transaction(Deposit, None, 0, 0.0, amount, r.balance)]
    ensures r.holdings == s.holdings && r.stocks == s.stocks
    ensures Linked(s) ==> Linked(r)
    ensures Recorded(r)
  {
    var balance := s.balance + amount;
    s.(balance := balance,
       history := s.history + [Transaction(Deposit, None, 0, 0.0, amount, balance)])
  }

  /** `addStock`: registers the stock, replacing any earlier price for its symbol. */
  function AddStock(s: AccountState, stock: Stock): (r: AccountState)
    ensures r.stocks.Keys == s.stocks.Keys + {stock.symbol}
    ensures r.stocks[stock.symbol] == stock.price
    ensures forall symbol :: symbol in s.stocks && symbol != stock.symbol ==> r.stocks[symbol] == s.stocks[symbol]
    ensures r.balance == s.balance && r.holdings == s.holdings && r.history == s.history
    ensures Consistent(s) ==> Consistent(r)
  {
    s.(stocks := s.stocks[stock.symbol := stock.price])
  }

  /** `buyStock`: pays the CALLER's price, not the catalog's; a repeated buy adds to
      the share count and keeps the original purchase price. */
  function BuyStock(s: AccountState, symbol: string, shares: int32, purchasePrice: real): (r: Result<AccountState>)
    ensures symbol !in s.stocks ==> r == Err(StockNotFound)
    ensures symbol in s.stocks && Amount(shares, purchasePrice) > s.balance ==> r == Err(InsufficientFunds)
    ensures r.Ok? <==> symbol in s.stocks && Amount(shares, purchasePrice) <= s.balance
    ensures r.Ok? ==>
      var t := r.value;
      && t.balance == s.balance - Amount(shares, purchasePrice)
      && t.balance >= 0.0
      && t.stocks == s.stocks
      && symbol in t.holdings
      && t.holdings[symbol] == (if symbol in s.holdings
                                then Holding(Wrap(s.holdings[symbol].shares + shares), s.holdings[symbol].purchasePrice)
                                else Holding(shares, purchasePrice))
      && t.holdings - {symbol} == s.holdings - {symbol}
      && t.history == s.history + [Transaction(Buy, Some(symbol), shares, purchasePrice, Amount(shares, purchasePrice), t.balance)]
      && Recorded(t)
      && (Linked(s) ==> Linked(t))
  {
    if symbol !in s.stocks then Err(StockNotFound)
    else
      var totalCost := Amount(shares, purchasePrice);
      if totalCost > s.balance then Err(InsufficientFunds)
      else
        var balance := s.balance - totalCost;
        var holding := if symbol in s.holdings then s.holdings[symbol].AddShares(shares)
                       else Holding(shares, purchasePrice);
        Ok(s.(balance := balance,
              holdings := s.holdings[symbol := holding],
              history := s.history + [Transaction(Buy, Some(symbol), shares, purchasePrice, totalCost, balance)]))
  }

  /** `sellStock`: priced at the stock's CURRENT price, not the purchase price;
      the holding is removed once its count is 0. */
  function SellStock(s: AccountState, symbol: string, shares: int32): (r: Result<AccountState>)
    requires Linked(s)
    ensures symbol !in s.holdings ==> r == Err(NoHoldings)
    ensures symbol in s.holdings && shares > s.holdings[symbol].shares ==> r == Err(NotEnoughShares)
    ensures r.Ok? <==> symbol in s.holdings && shares <= s.holdings[symbol].shares
    ensures r.Ok? ==>
      var t := r.value;
      var price := s.stocks[symbol];
      var left := Wrap(s.holdings[symbol].shares - shares);
      && t.balance == s.balance + Amount(shares, price)
      && t.stocks == s.stocks
      && (symbol in t.holdings <==> left != 0)
      && (symbol in t.holdings ==> t.holdings[symbol] == Holding(left, s.holdings[symbol].purchasePrice))
      && t.holdings - {symbol} == s.holdings - {symbol}
      && t.history == s.history + [Transaction(Sell, Some(symbol), shares, price, Amount(shares, price), t.balance)]
      && Consistent(t)
  {
    if symbol !in s.holdings then Err(NoHoldings)
    else
      var holding := s.holdings[symbol];
      if shares > holding.shares then Err(NotEnoughShares)
      else
        var price := s.stocks[symbol];
        var saleValue := Amount(shares, price);
        var balance := s.balance + saleValue;
        var remaining := holding.AddShares(Wrap(-(shares as int)));
        WrapAbsorbs(holding.shares, -(shares as int));
        var holdings := if remaining.shares == 0 then s.holdings - {symbol}
                        else s.holdings[symbol := remaining];
        Ok(s.(balance := balance,
              holdings := holdings,
              history := s.history + [Transaction(Sell, Some(symbol), shares, price, saleValue, balance)]))
  }

  // ----- the share-count discipline the source leaves to its callers -----

  /** Nothing validates `shares`; with a positive count that does not overflow, a
      buy keeps every holding positive. */
  lemma BuyKeepsPositiveHoldings(s: AccountState, symbol: string, shares: int32, purchasePrice: real)
    requires PositiveHoldings(s.holdings) && shares > 0
    requires symbol in s.holdings ==> s.holdings[symbol].shares + shares <= MAX
    requires BuyStock(s, symbol, shares, purchasePrice).Ok?
    ensures var t := BuyStock(s, symbol, shares, purchasePrice).value;
      && PositiveHoldings(t.holdings)
      && t.holdings[symbol].shares == (if symbol in s.holdings then s.holdings[symbol].shares else 0) + shares
  {
  }

  /** With a positive count, a sale leaves a positive remainder or removes the
      holding exactly when every share was sold, so no zero-share holding remains. */
  lemma SellKeepsPositiveHoldings(s: AccountState, symbol: string, shares: int32)
    requires Linked(s) && PositiveHoldings(s.holdings) && shares > 0
    requires SellStock(s, symbol, shares).Ok?
    ensures var t := SellStock(s, symbol, shares).value;
      && PositiveHoldings(t.holdings)
      && (symbol !in t.holdings <==> shares == s.holdings[symbol].shares)
      && (symbol in t.holdings ==> t.holdings[symbol].shares == s.holdings[symbol].shares - shares)
  {
  }
}
