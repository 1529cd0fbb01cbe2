/** The account object: balance, position book, catalog and history are fields that
    the operations update in place. Each method is specified by the operation of
    the same name in module Ledger. */
module Accounts {
  import opened Int32
  import opened Sums
  import opened Ledger
  import opened Totals

  datatype Status = Completed | Rejected(reason: Error)

  class BrokerageAccount {
    var balance: real
    var holdings: map<string, Holding>
    var stocks: map<string, real>
    var transactionHistory: seq<Transaction>

    /** The account's value as a whole. */
    function State(): AccountState
      reads this
    {
      AccountState(balance, holdings, stocks, transactionHistory)
    }

    ghost predicate Valid()
      reads this
    {
      Consistent(State())
    }

    constructor ()
      ensures Valid() && State() == Initial()
    {
      balance := 0.0;
      holdings := map[];
      stocks := map[];
      transactionHistory := [];
    }

    method AddFunds(amount: real)
      requires Valid()
      modifies this
      ensures Valid() && State() == Ledger.AddFunds(old(State()), amount)
    {
      balance := balance + amount;
      transactionHistory := transactionHistory + [Transaction(Deposit, None, 0, 0.0, amount, balance)];
    }

    method AddStock(stock: Stock)
      requires Valid()
      modifies this
      ensures Valid() && State() == Ledger.AddStock(old(State()), stock)
    {
      stocks := stocks[stock.symbol := stock.price];
    }

    method BuyStock(symbol: string, shares: int32, purchasePrice: real) returns (status: Status)
      requires Valid()
      modifies this
      ensures Valid()
      ensures match Ledger.BuyStock(old(State()), symbol, shares, purchasePrice)
        case Ok(t) => status == Completed && State() == t
        case Err(e) => status == Rejected(e) && State() == old(State())
    {
      if symbol !in stocks {
        return Rejected(StockNotFound);
      }
      var totalCost := Amount(shares, purchasePrice);
      if totalCost > balance {
        return Rejected(InsufficientFunds);
      }
      balance := balance - totalCost;
      if symbol !in holdings {
        holdings := holdings[symbol := Holding(shares, purchasePrice)];
      } else {
        holdings := holdings[symbol := holdings[symbol].AddShares(shares)];
      }
      transactionHistory := transactionHistory + [Transaction(Buy, Some(symbol), shares, purchasePrice, totalCost, balance)];
      status := Completed;
    }

    method SellStock(symbol: string, shares: int32) returns (status: Status)
      requires Valid()
      modifies this
      ensures Valid()
      ensures match Ledger.SellStock(old(State()), symbol, shares)
        case Ok(t) => status == Completed && State() == t
        case Err(e) => status == Rejected(e) && State() == old(State())
    {
      if symbol !in holdings {
        return Rejected(NoHoldings);
      }
      if shares > holdings[symbol].shares {
        return Rejected(NotEnoughShares);
      }
      var saleValue := Amount(shares, stocks[symbol]);
      balance := balance + saleValue;
      var holding := holdings[symbol].AddShares(Wrap(-(shares as int)));
      holdings := holdings[symbol := holding];
      if holding.shares == 0 {
        holdings := holdings - {symbol};
      }
      transactionHistory := transactionHistory + [Transaction(Sell, Some(symbol), shares, stocks[symbol], saleValue, balance)];
      status := Completed;
    }

    /** `getBalance`: always the balance the newest record reports, or 0 before any. */
    function GetBalance(): (r: real)
      reads this
      requires Valid()
      ensures transactionHistory != [] ==> r == Last(transactionHistory).balanceAfter
      ensures transactionHistory == [] ==> r == 0.0
    {
      balance
    }

    /** The totals `displayHoldings` reports, summed over the holdings in whatever
        order they are visited. */
    method DisplayHoldings() returns (totalInvested: real, totalValue: real, netProfitLoss: real)
      requires Valid()
      ensures totalInvested == TotalInvested(holdings)
      ensures totalValue == TotalValue(holdings, stocks)
      ensures netProfitLoss == NetProfitLoss(holdings, stocks)
    {
      totalInvested, totalValue := 0.0, 0.0;
      var pending := holdings.Keys;
      while pending != {}
        invariant pending <= holdings.Keys
        invariant totalInvested + Sum(pending, Investments(holdings)) == TotalInvested(holdings)
        invariant totalValue + Sum(pending, Values(holdings, stocks)) == TotalValue(holdings, stocks)
        decreases pending
      {
        var symbol :| symbol in pending;
        SumPick(pending, Investments(holdings), symbol);
        SumPick(pending, Values(holdings, stocks), symbol);
        totalInvested := totalInvested + holdings[symbol].TotalInvestment();
        totalValue := totalValue + holdings[symbol].CurrentValue(stocks[symbol]);
        pending := pending - {symbol};
      }
      netProfitLoss := totalValue - totalInvested;
    }
  }

  /** A session as the menu would drive it: the catalog `main` sets up, a deposit,
      a buy, a buy the balance cannot cover and an unknown symbol, with what the
      contracts alone let a caller conclude. */
  method BuyScenario() {
    var account := new BrokerageAccount();
    account.AddStock(Stock("AAPL", 150.0));
    account.AddStock(Stock("GOOGL", 2800.0));
    account.AddStock(Stock("AMZN", 3300.0));
    account.AddFunds(1000.0);
    assert account.GetBalance() == 1000.0;

    var status := account.BuyStock("AAPL", 5, 150.0);
    assert status == Completed && account.balance == 250.0;
    assert account.holdings["AAPL"] == Holding(5, 150.0);
    assert Last(account.transactionHistory) == Transaction(Buy, Some("AAPL"), 5, 150.0, 750.0, 250.0);

    status := account.BuyStock("AAPL", 10, 150.0);
    assert status == Rejected(InsufficientFunds) && account.balance == 250.0;
    assert account.holdings["AAPL"] == Holding(5, 150.0) && |account.transactionHistory| == 2;

    status := account.BuyStock("MSFT", 1, 1.0);
    assert status == Rejected(StockNotFound) && |account.transactionHistory| == 2;
  }

  /** A repeated buy at another price keeps the first purchase price, and selling
      every share removes the position. */
  method SellScenario() {
    var account := new BrokerageAccount();
    account.AddStock(Stock("AAPL", 150.0));
    account.AddFunds(1000.0);
    var status := account.BuyStock("AAPL", 5, 150.0);
    status := account.BuyStock("AAPL", 2, 100.0);
    assert status == Completed && account.balance == 50.0;
    assert account.holdings["AAPL"] == Holding(7, 150.0);

    status := account.SellStock("GOOGL", 1);
    assert status == Rejected(NoHoldings);
    status := account.SellStock("AAPL", 8);
    assert status == Rejected(NotEnoughShares);

    status := account.SellStock("AAPL", 7);
    assert status == Completed && account.balance == 1100.0;
    assert "AAPL" !in account.holdings && |account.transactionHistory| == 4;
  }
}
